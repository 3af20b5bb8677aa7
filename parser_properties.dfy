/**
 * What the precedence-climbing parser of Parser.cpp guarantees, proved about
 * the functions of ParserSpec (and so, through the contracts of
 * Parser.Parser, about the object's methods): printing a tree with the
 * fewest parentheses the precedence table allows and parsing the tokens
 * back gives the same tree, which pins down precedence and associativity of
 * every tier; and the error paths build null children instead of failing.
 */
module ParserProperties {
  import opened Wrappers
  import opened Tokens
  import opened Numbers
  import opened Ast
  import opened ParserSpec

  // ---------------------------------------------------------------------
  // Printing trees back as tokens

  /** The level a tree sits at in the grammar: a binary node at its
      operator's tier, a unary node or a literal at the prefix level. */
  function Tier(e: Expr): (tier: nat)
    ensures tier <= PrefixLevel
  {
    if e.Binary? then OpTier(e.bop) else PrefixLevel
  }

  predicate IsLiteral(t: Token)
  {
    t.kind == IntegerLiteral || t.kind == FloatLiteral
  }

  /** The trees the parser can build from a well-formed expression: no null
      children, no Nil, every operator node on a token of its kind and every
      constant holding the value parsePrimary reads from its literal. */
  predicate Printable(e: Expr)
  {
    match e
    case Constant(t, v) => IsLiteral(t) && v == LiteralValue(t)
    case Nil(_) => false
    case Unary(t, op, b) => t.kind == PrefixKind(op) && b.Some? && Printable(b.value)
    case Binary(t, op, l, r) =>
      && t.kind == OpKind(op)
      && l.Some? && Printable(l.value)
      && r.Some? && Printable(r.value)
  }

  const OpenTok: Token := Token(OpenParen, "(", 0, 0)
  const CloseTok: Token := Token(CloseParen, ")", 0, 0)

  /** The tokens of e with the fewest parentheses: a left operand of a
      looser tier, a right operand of a looser or the same tier, and a
      binary operand of a prefix operator are parenthesised. */
  function Unparse(e: Expr): (u: seq<Token>)
    requires Printable(e)
    ensures |u| > 0
    decreases e, 0
  {
    match e
    case Constant(t, _) => [t]
    case Unary(t, _, b) => [t] + Wrap(b.value, b.value.Binary?)
    case Binary(t, op, l, r) =>
      Wrap(l.value, Tier(l.value) < OpTier(op)) + [t] + Wrap(r.value, Tier(r.value) <= OpTier(op))
  }

  function Wrap(e: Expr, paren: bool): (u: seq<Token>)
    requires Printable(e)
    ensures |u| > 0
    decreases e, 1
  {
    if paren then [OpenTok] + Unparse(e) + [CloseTok] else Unparse(e)
  }

  /** Where the tokens of e, as Unparse lays them out, end when they stand
      in toks from index p on with a token after them; None when they do
      not. Reading the layout node by node keeps positions out of the
      sequence algebra. */
  function Lay(toks: seq<Token>, p: nat, e: Expr): (r: Option<nat>)
    ensures r.Some? ==> p < r.value < |toks|
    decreases e, 0
  {
    if p >= |toks| then None
    else
      match e
      case Constant(t, v) =>
        if toks[p] == t && IsLiteral(t) && v == LiteralValue(t) && p + 1 < |toks| then Some(p + 1)
        else None
      case Nil(_) => None
      case Unary(t, op, b) =>
        if toks[p] == t && t.kind == PrefixKind(op) && b.Some? then LayWrapped(toks, p + 1, b.value, b.value.Binary?)
        else None
      case Binary(t, op, l, r) =>
        if l.Some? && r.Some? then
          match LayWrapped(toks, p, l.value, Tier(l.value) < OpTier(op))
          case None => None
          case Some(m) =>
            if toks[m] == t && t.kind == OpKind(op) then LayWrapped(toks, m + 1, r.value, Tier(r.value) <= OpTier(op))
            else None
        else None
  }

  function LayWrapped(toks: seq<Token>, p: nat, e: Expr, paren: bool): (r: Option<nat>)
    ensures r.Some? ==> p < r.value < |toks|
    decreases e, 1
  {
    if !paren then Lay(toks, p, e)
    else if p < |toks| && toks[p] == OpenTok then
      match Lay(toks, p + 1, e)
      case None => None
      case Some(c) => if toks[c] == CloseTok && c + 1 < |toks| then Some(c + 1) else None
    else None
  }

  /** u stands in toks from index p on. */
  ghost predicate Occurs(toks: seq<Token>, p: nat, u: seq<Token>)
  {
    p + |u| <= |toks| && forall i :: 0 <= i < |u| ==> toks[p + i] == u[i]
  }

  lemma OccursIn(pre: seq<Token>, u: seq<Token>, post: seq<Token>)
    ensures Occurs(pre + u + post, |pre|, u)
  {
    var toks := pre + u + post;
    forall i | 0 <= i < |u|
      ensures toks[|pre| + i] == u[i]
    {
    }
  }

  /** The parts of a + [t] + b, where that stands in toks. */
  lemma OccursSplit(toks: seq<Token>, p: nat, a: seq<Token>, t: Token, b: seq<Token>)
    requires Occurs(toks, p, a + [t] + b)
    ensures Occurs(toks, p, a) && toks[p + |a|] == t && Occurs(toks, p + |a| + 1, b)
  {
    var u := a + [t] + b;
    forall i | 0 <= i < |a|
      ensures toks[p + i] == a[i]
    {
      assert u[i] == a[i];
    }
    assert u[|a|] == t;
    forall i | 0 <= i < |b|
      ensures toks[p + |a| + 1 + i] == b[i]
    {
      assert u[|a| + 1 + i] == b[i];
    }
  }

  lemma OccursCons(toks: seq<Token>, p: nat, t: Token, b: seq<Token>)
    requires Occurs(toks, p, [t] + b)
    ensures toks[p] == t && Occurs(toks, p + 1, b)
  {
    assert [t] + b == [] + [t] + b;
    OccursSplit(toks, p, [], t, b);
  }

  /** Unparse between any tokens before it and at least one after it is
      laid out as Lay reads it. */
  lemma UnparseLay(e: Expr, pre: seq<Token>, post: seq<Token>)
    requires Printable(e) && |post| > 0
    ensures Lay(pre + Unparse(e) + post, |pre|, e) == Some(|pre| + |Unparse(e)|)
  {
    OccursIn(pre, Unparse(e), post);
    OccursLay(pre + Unparse(e) + post, |pre|, e);
  }

  /** Wherever the printed tokens of e stand, with a token after them, Lay
      reads e there and stops after them. */
  lemma {:induction false} OccursLay(toks: seq<Token>, p: nat, e: Expr)
    requires Printable(e) && Occurs(toks, p, Unparse(e)) && p + |Unparse(e)| < |toks|
    ensures Lay(toks, p, e) == Some(p + |Unparse(e)|)
    decreases e, 2
  {
    match e
    case Constant(t, _) =>
      assert Unparse(e)[0] == t;
    case Unary(_, _, _) =>
      UnaryLay(toks, p, e);
    case Binary(_, _, _, _) =>
      BinaryLay(toks, p, e);
  }

  lemma {:induction false} UnaryLay(toks: seq<Token>, p: nat, e: Expr)
    requires Printable(e) && e.Unary? && Occurs(toks, p, Unparse(e)) && p + |Unparse(e)| < |toks|
    ensures Lay(toks, p, e) == Some(p + |Unparse(e)|)
    decreases e, 1
  {
    var Unary(t, _, b) := e;
    var w := Wrap(b.value, b.value.Binary?);
    assert Unparse(e) == [t] + w;
    OccursCons(toks, p, t, w);
    WrapLay(toks, p + 1, b.value, b.value.Binary?);
  }

  lemma {:induction false} BinaryLay(toks: seq<Token>, p: nat, e: Expr)
    requires Printable(e) && e.Binary? && Occurs(toks, p, Unparse(e)) && p + |Unparse(e)| < |toks|
    ensures Lay(toks, p, e) == Some(p + |Unparse(e)|)
    decreases e, 1
  {
    var Binary(t, op, l, r) := e;
    var pl, pr := Tier(l.value) < OpTier(op), Tier(r.value) <= OpTier(op);
    var wl, wr := Wrap(l.value, pl), Wrap(r.value, pr);
    assert Unparse(e) == wl + [t] + wr;
    OccursSplit(toks, p, wl, t, wr);
    WrapLay(toks, p, l.value, pl);
    WrapLay(toks, p + |wl| + 1, r.value, pr);
    BinaryLayStep(toks, p, t, op, l.value, r.value, p + |wl|, p + |wl| + 1 + |wr|);
  }

  /** Lay on a binary node, from where its two operands end. */
  lemma BinaryLayStep(toks: seq<Token>, p: nat, t: Token, op: BinaryOp, l: Expr, r: Expr, m: nat, end: nat)
    requires p < |toks| && m < |toks| && toks[m] == t && t.kind == OpKind(op)
    requires LayWrapped(toks, p, l, Tier(l) < OpTier(op)) == Some(m)
    requires LayWrapped(toks, m + 1, r, Tier(r) <= OpTier(op)) == Some(end)
    ensures Lay(toks, p, Binary(t, op, Some(l), Some(r))) == Some(end)
  {
  }

  lemma {:induction false} WrapLay(toks: seq<Token>, p: nat, e: Expr, paren: bool)
    requires Printable(e) && Occurs(toks, p, Wrap(e, paren)) && p + |Wrap(e, paren)| < |toks|
    ensures LayWrapped(toks, p, e, paren) == Some(p + |Wrap(e, paren)|)
    decreases e, 3
  {
    var u := Unparse(e);
    if paren {
      assert Wrap(e, paren) == [OpenTok] + u + [CloseTok];
      OccursSplit(toks, p, [OpenTok] + u, CloseTok, []);
      OccursCons(toks, p, OpenTok, u);
      OccursLay(toks, p + 1, e);
    } else {
      OccursLay(toks, p, e);
    }
  }

  /** An operator token belongs to its own tier and to no other. */
  lemma OpKindTier(op: BinaryOp, tier: nat)
    ensures TierOp(tier, OpKind(op)) == if tier == OpTier(op) then Some(op) else None
  {
    match TierOp(tier, OpKind(op))
    case None => TierOpIff(tier, OpKind(op), op);
    case Some(op') =>
      TierOpIff(tier, OpKind(op), op');
      TierOpIff(tier, OpKind(op), op);
  }

  lemma OperatorStopsTighterTiers(op: BinaryOp)
    ensures NoTierFrom(OpKind(op), OpTier(op) + 1)
  {
    forall tier | OpTier(op) + 1 <= tier < PrefixLevel
      ensures TierOp(tier, OpKind(op)).None?
    {
      OpKindTier(op, tier);
    }
  }

  /** A prefix-level tree (a literal or a unary node) is read by
      parsePrefix exactly. */
  lemma {:induction false} ParsePrefixUnparse(toks: seq<Token>, e: Expr, p: nat, end: nat)
    requires WellFormed(toks) && Tier(e) == PrefixLevel
    requires Lay(toks, p, e) == Some(end)
    ensures Parse(toks, Corrected, PrefixLevel, p) == Parsed(Some(e), end)
    decreases e, 0
  {
    match e
    case Constant(t, _) =>
      PrefixPassThrough(toks, Corrected, p);
    case Unary(t, op, b) =>
      PrefixOpIff(t.kind, op);
      if b.value.Binary? {
        PrefixGroupingUnparse(toks, b.value, p + 1, end);
      } else {
        ParsePrefixUnparse(toks, b.value, p + 1, end);
      }
  }

  /** The round trip at any level: parseX, on the printed tokens of a tree
      at its level or tighter and a token after them that is no operator of
      its tier or a tighter one, reads back exactly that tree and stops at
      that token. */
  lemma {:induction false} ParseUnparse(toks: seq<Token>, e: Expr, level: nat, p: nat, end: nat)
    requires WellFormed(toks) && level <= Tier(e)
    requires Lay(toks, p, e) == Some(end)
    requires level < PrefixLevel ==> NoTierFrom(toks[end].kind, level)
    ensures Parse(toks, Corrected, level, p) == Parsed(Some(e), end)
    decreases e, 3 * (PrimaryLevel + 1 - level) + 1
  {
    if level == PrefixLevel {
      ParsePrefixUnparse(toks, e, p, end);
    } else {
      ParseTierUnparse(toks, e, level, p, end);
      TierLoopStop(toks, Corrected, level, Some(e), end);
    }
  }

  /** Tier L, started on the tokens of a tree at tier L or tighter, reads
      the whole tree and goes on looking for tier-L operators after it, as
      long as the next token is no operator of a tighter tier. */
  lemma {:induction false} ParseTierUnparse(toks: seq<Token>, e: Expr, level: nat, p: nat, end: nat)
    requires WellFormed(toks) && level < PrefixLevel && level <= Tier(e)
    requires Lay(toks, p, e) == Some(end)
    requires NoTierFrom(toks[end].kind, level + 1)
    ensures Parse(toks, Corrected, level, p) == TierLoop(toks, Corrected, level, Some(e), end)
    decreases e, 3 * (PrimaryLevel + 1 - level)
  {
    if level < Tier(e) {
      ParseUnparse(toks, e, level + 1, p, end);
      TierEntry(toks, Corrected, level, p, Some(e), end);
    } else {
      ParseBinaryUnparse(toks, e, p, end);
    }
  }

  /** A binary tree at tier L: the left operand is read by tier L up to the
      operator, the operator is matched, and the next tier reads the right
      operand to the end. */
  lemma {:induction false} ParseBinaryUnparse(toks: seq<Token>, e: Expr, p: nat, end: nat)
    requires WellFormed(toks) && e.Binary?
    requires Lay(toks, p, e) == Some(end)
    requires NoTierFrom(toks[end].kind, OpTier(e.bop) + 1)
    ensures Parse(toks, Corrected, OpTier(e.bop), p) == TierLoop(toks, Corrected, OpTier(e.bop), Some(e), end)
    decreases e, 1
  {
    var Binary(t, op, l, r) := e;
    var level := OpTier(op);
    var m := BinaryLaySplit(toks, p, e, end);
    ParseRightOperand(toks, r.value, level, m + 1, end);
    OpKindTier(op, level);
    TierLoopStep(toks, Corrected, level, l, m, op, m + 1, r, end);
    OperatorStopsTighterTiers(op);
    ParseLeftOperand(toks, l.value, level, p, m);
  }

  /** A binary tree laid out from p to end: its left operand ends at the
      operator token m, and its right operand runs from m + 1 to end. */
  lemma BinaryLaySplit(toks: seq<Token>, p: nat, e: Expr, end: nat) returns (m: nat)
    requires e.Binary? && Lay(toks, p, e) == Some(end)
    ensures e.left.Some? && e.right.Some? && m < |toks| && toks[m] == e.tok && e.tok.kind == OpKind(e.bop)
    ensures LayWrapped(toks, p, e.left.value, Tier(e.left.value) < OpTier(e.bop)) == Some(m)
    ensures LayWrapped(toks, m + 1, e.right.value, Tier(e.right.value) <= OpTier(e.bop)) == Some(end)
  {
    m := LayWrapped(toks, p, e.left.value, Tier(e.left.value) < OpTier(e.bop)).value;
  }

  /** The left operand of a tier-L operator: parenthesised when it is
      looser, read by tier L itself up to the operator otherwise. */
  lemma {:induction false} ParseLeftOperand(toks: seq<Token>, l: Expr, level: nat, p: nat, m: nat)
    requires WellFormed(toks) && level < PrefixLevel
    requires LayWrapped(toks, p, l, Tier(l) < level) == Some(m)
    requires NoTierFrom(toks[m].kind, level + 1)
    ensures Parse(toks, Corrected, level, p) == TierLoop(toks, Corrected, level, Some(l), m)
    decreases l, 60
  {
    if Tier(l) < level {
      ParseParenthesised(toks, l, level + 1, p, m);
      TierEntry(toks, Corrected, level, p, Some(l), m);
    } else {
      ParseTierUnparse(toks, l, level, p, m);
    }
  }

  /** The right operand of a tier-L operator: parenthesised when it is
      looser or of the same tier, and read by tier L + 1 to its end. */
  lemma {:induction false} ParseRightOperand(toks: seq<Token>, r: Expr, level: nat, p: nat, end: nat)
    requires WellFormed(toks) && level < PrefixLevel
    requires LayWrapped(toks, p, r, Tier(r) <= level) == Some(end)
    requires NoTierFrom(toks[end].kind, level + 1)
    ensures Parse(toks, Corrected, level + 1, p) == Parsed(Some(r), end)
    decreases r, 60
  {
    if Tier(r) <= level {
      ParseParenthesised(toks, r, level + 1, p, end);
    } else {
      ParseUnparse(toks, r, level + 1, p, end);
    }
  }

  /** A parenthesised tree is read as one operand at every level. */
  lemma {:induction false} ParseParenthesised(toks: seq<Token>, e: Expr, level: nat, p: nat, end: nat)
    requires WellFormed(toks) && level <= PrefixLevel
    requires LayWrapped(toks, p, e, true) == Some(end)
    requires level < PrefixLevel ==> NoTierFrom(toks[end].kind, level)
    ensures Parse(toks, Corrected, level, p) == Parsed(Some(e), end)
    decreases e, 6 * PrimaryLevel + 1 - level
  {
    if level == PrefixLevel {
      PrefixGroupingUnparse(toks, e, p, end);
    } else {
      ParseParenthesised(toks, e, level + 1, p, end);
      TierPassThrough(toks, Corrected, level, p, Some(e), end);
    }
  }

  /** parsePrefix, on '(', reads a parenthesised tree with its ')'. */
  lemma {:induction false} PrefixGroupingUnparse(toks: seq<Token>, e: Expr, p: nat, end: nat)
    requires WellFormed(toks)
    requires LayWrapped(toks, p, e, true) == Some(end)
    ensures Parse(toks, Corrected, PrefixLevel, p) == Parsed(Some(e), end)
    decreases e, 5 * PrimaryLevel + 1
  {
    var close := Lay(toks, p + 1, e).value;
    assert Parse(toks, Corrected, 0, p + 1) == Parsed(Some(e), close) by {
      ParenIsNoOperator();
      ParseUnparse(toks, e, 0, p + 1, close);
    }
    PrimaryGroup(toks, Corrected, p, Some(e), close);
    PrefixPassThrough(toks, Corrected, p);
  }

  lemma ParenIsNoOperator()
    ensures NoTierFrom(CloseParen, 0)
  {
  }

  lemma EofIsNoOperator()
    ensures NoTierFrom(Eof, 0)
  {
  }

  /** parse() on a printed tree followed by Eof gives back the tree. */
  lemma {:induction false} RoundTrip(e: Expr, eof: Token)
    requires Printable(e) && eof.kind == Eof
    ensures ParseAll(Unparse(e) + [eof], Corrected) == Parsed(Some(e), |Unparse(e)|)
  {
    var toks := Unparse(e) + [eof];
    assert toks == [] + Unparse(e) + [eof];
    UnparseLay(e, [], [eof]);
    EofIsNoOperator();
    ParseUnparse(toks, e, 0, 0, |Unparse(e)|);
  }

  /** The round trip as Parser.cpp is written: the same tokens are consumed
      and the tree has the printed tree's shape; only the tokens its
      operator nodes carry differ. */
  lemma RoundTripAsWritten(e: Expr, eof: Token)
    requires Printable(e) && eof.kind == Eof
    ensures ParseAll(Unparse(e) + [eof], AsWritten).pos == |Unparse(e)|
    ensures SameOptShape(ParseAll(Unparse(e) + [eof], AsWritten).expr, Some(e))
  {
    RoundTrip(e, eof);
    RulesAgree(Unparse(e) + [eof], 0, 0);
  }

  /** So the printing loses nothing: different trees print differently. */
  lemma {:induction false} UnparseInjective(e1: Expr, e2: Expr)
    requires Printable(e1) && Printable(e2) && Unparse(e1) == Unparse(e2)
    ensures e1 == e2
  {
    var eof := Token(Eof, "", 0, 0);
    RoundTrip(e1, eof);
    RoundTrip(e2, eof);
  }
}
