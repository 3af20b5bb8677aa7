/**
 * The scanner of Lexer.cpp as a state machine over values: a LexState holds
 * every field the scanner object keeps, and NextStep is one call of next().
 * The class in lexer.dfy is proved to perform exactly these steps.
 */
module LexerSpec {
  import opened Tokens
  import opened Numbers

  /** The scanner's fields: the read-only source view, the cursor (current,
      start), the position (line, col), the indentation stack, the count of
      queued Dedent tokens, and the line-start flag. */
  datatype LexState = LexState(
    source: string,
    current: nat,
    start: nat,
    line: nat,
    col: nat,
    levels: seq<nat>,
    pending: nat,
    lineBegin: bool)

  /** The token one call returns, with the state it leaves behind. */
  datatype Step = Step(token: Token, state: LexState)

  predicate StrictlyIncreasing(xs: seq<nat>)
  {
    forall i, j :: 0 <= i < j < |xs| ==> xs[i] < xs[j]
  }

  function Top(levels: seq<nat>): nat
    requires |levels| > 0
  {
    levels[|levels| - 1]
  }

  /** The scanner's invariant between calls: the cursor stays within the
      source, and the indentation stack is non-empty, has 0 at the bottom and
      strictly increases towards the top. */
  predicate Inv(s: LexState)
  {
    && s.start <= s.current <= |s.source|
    && |s.levels| > 0
    && s.levels[0] == 0
    && StrictlyIncreasing(s.levels)
  }

  /** The state right after construction: line 1, column 0, the stack [0],
      nothing queued, and (an assumption, since the header does not declare
      the flag) at the start of a line. */
  function Initial(src: string): (s: LexState)
    ensures Inv(s)
  {
    LexState(src, 0, 0, 1, 0, [0], 0, true)
  }

  // ---------------------------------------------------------------------
  // Characters

  /** The source as the scanner sees it: past the end it reads a NUL byte. */
  function CharAt(src: string, i: nat): char
  {
    if i < |src| then src[i] else '\0'
  }

  function Peek(s: LexState): char
  {
    CharAt(s.source, s.current)
  }

  /** `std::isalpha` in the C locale (`std::isdigit` is Numbers.IsDigit). */
  predicate IsAlpha(c: char) { 'a' <= c <= 'z' || 'A' <= c <= 'Z' }
  predicate IsIdentChar(c: char) { IsDigit(c) || IsAlpha(c) || c == '_' }
  predicate IsBlank(c: char) { c == ' ' || c == '\t' }

  /** The three character runs the scanner consumes with a loop. */
  datatype CharClass = Tabs | Digits | IdentChars

  predicate InClass(k: CharClass, c: char)
  {
    match k
    case Tabs => c == '\t'
    case Digits => IsDigit(c)
    case IdentChars => IsIdentChar(c)
  }

  /** The end of the maximal run of class k that starts at i. */
  function RunEnd(src: string, i: nat, k: CharClass): (e: nat)
    requires i <= |src|
    ensures i <= e <= |src|
    ensures forall j :: i <= j < e ==> InClass(k, src[j])
    ensures !InClass(k, CharAt(src, e))
    decreases |src| - i
  {
    if i < |src| && InClass(k, src[i]) then RunEnd(src, i + 1, k) else i
  }

  // ---------------------------------------------------------------------
  // The helpers of Lexer.cpp, one function each

  /** advance(): past the end the cursor stays put, but the column still moves. */
  function Advanced(s: LexState): LexState
  {
    s.(current := if s.current < |s.source| then s.current + 1 else s.current,
       col := s.col + 1)
  }

  /** The state after a `while (pred(peek())) advance();` loop. */
  function TakeRun(s: LexState, k: CharClass): (r: LexState)
    requires s.current <= |s.source|
    ensures r == s.(current := r.current, col := r.col)
    ensures r.current == RunEnd(s.source, s.current, k)
    ensures r.col == s.col + (r.current - s.current)
  {
    var e := RunEnd(s.source, s.current, k);
    s.(current := e, col := s.col + (e - s.current))
  }

  /** getFirstNonWhitespace(): sets start and advances until the character
      read is neither a space nor a tab; that character is the one at start. */
  function SkipBlanks(s: LexState): (r: LexState)
    requires s.current <= |s.source|
    ensures s.current <= r.start <= r.current <= |s.source|
    ensures r.current == if r.start < |s.source| then r.start + 1 else r.start
    ensures forall j :: s.current <= j < r.start ==> IsBlank(s.source[j])
    ensures !IsBlank(CharAt(s.source, r.start))
    ensures r.col == s.col + (r.start - s.current) + 1
    ensures r == s.(current := r.current, start := r.start, col := r.col)
    decreases |s.source| - s.current
  {
    var s1 := Advanced(s.(start := s.current));
    if IsBlank(Peek(s)) then SkipBlanks(s1) else s1
  }

  function Lexeme(s: LexState): string
    requires s.start <= s.current <= |s.source|
  {
    s.source[s.start..s.current]
  }

  /** simple(type): the text between start and the cursor, at the current
      line and column. */
  function SimpleToken(s: LexState, kind: TokenKind): Token
    requires s.start <= s.current <= |s.source|
  {
    Token(kind, Lexeme(s), s.line, s.col)
  }

  /** error(msg): the diagnostic is the lexeme. */
  function ErrorToken(s: LexState, msg: string): Token
  {
    Token(Error, msg, s.line, s.col)
  }

  const UnknownCharacter: string := "Unknown character"

  /** endOfLine(): the Eol token, then the next line starts at column 0. */
  function EndOfLine(s: LexState): Step
    requires s.start <= s.current <= |s.source|
  {
    Step(SimpleToken(s, Eol), s.(line := s.line + 1, col := 0, lineBegin := true))
  }

  /** number(), called after the first digit was read: a digit run, then
      optionally '.' and a second digit run. The token records the line and
      column at which the first digit was read. */
  function Number(s: LexState): (r: Step)
    requires s.start <= s.current <= |s.source|
    ensures r.state.start == s.start <= r.state.current <= |s.source|
    ensures r.state == s.(current := r.state.current, col := r.state.col)
  {
    var s2 := TakeRun(s, Digits);
    if Peek(s2) != '.' then
      Step(Token(IntegerLiteral, Lexeme(s2), s.line, s.col), s2)
    else
      var s4 := TakeRun(Advanced(s2), Digits);
      Step(Token(FloatLiteral, Lexeme(s4), s.line, s.col), s4)
  }

  /** identifierOrKeyword(), called after the first character was read. Its
      column is computed back from the cursor, as the source does. */
  function IdentifierOrKeyword(s: LexState): (r: Step)
    requires s.start + 1 == s.current <= |s.source|
    ensures r.state.start == s.start <= r.state.current <= |s.source|
    ensures r.state == s.(current := r.state.current, col := r.state.col)
  {
    var s2 := TakeRun(s, IdentChars);
    Step(Token(Identifier, Lexeme(s2), s2.line, s2.col - (s2.current - s2.start - 1)), s2)
  }

  /** The part of next() after indentation: skip blanks and classify the
      character read. */
  function Scan(s: LexState): (r: Step)
    requires s.current <= |s.source|
    ensures r.state.start <= r.state.current <= |s.source|
    ensures r.state.levels == s.levels && r.state.pending == s.pending
    ensures r.state.source == s.source
    ensures r.state.lineBegin == (s.lineBegin || r.token.kind == Eol)
  {
    Classify(SkipBlanks(s))
  }

  /** The branch of next() taken on the character at start, which has just
      been read. */
  function Classify(s1: LexState): (r: Step)
    requires s1.start <= s1.current <= |s1.source|
    requires s1.current == if s1.start < |s1.source| then s1.start + 1 else s1.start
    ensures s1.start <= r.state.start <= r.state.current <= |s1.source|
    ensures r.state.levels == s1.levels && r.state.pending == s1.pending
    ensures r.state.source == s1.source
    ensures r.state.lineBegin == (s1.lineBegin || r.token.kind == Eol)
    ensures r.state.current >= s1.current
    ensures s1.start == |s1.source| ==> r.token.kind == Eof && r.state == s1
  {
    var c := CharAt(s1.source, s1.start);
    if c == '(' then Step(SimpleToken(s1, OpenParen), s1)
    else if c == ')' then Step(SimpleToken(s1, CloseParen), s1)
    else if c == '+' then Step(SimpleToken(s1, Plus), s1)
    else if c == '-' then Step(SimpleToken(s1, Minus), s1)
    else if c == '*' then
      if Peek(s1) == '*' then
        var s2 := Advanced(s1);
        Step(SimpleToken(s2, StarStar), s2)
      else
        Step(SimpleToken(s1, Star), s1)
    else if c == '/' then Step(SimpleToken(s1, Slash), s1)
    else if c == '\0' then Step(SimpleToken(s1, Eof), s1)
    else if c == '\n' then EndOfLine(s1)
    else if IsDigit(c) then Number(s1)
    else if IsAlpha(c) || c == '_' then IdentifierOrKeyword(s1)
    else Step(ErrorToken(s1, UnknownCharacter), s1)
  }

  /** determineLevelsOfDedent(level): pop while the level is below the top.
      The source's loop stops before the stack empties only because the
      bottom entry is 0, which is why the requires asks for it. */
  function PopAbove(levels: seq<nat>, level: nat): (kept: seq<nat>)
    requires |levels| > 0 && levels[0] <= level
    ensures 0 < |kept| <= |levels| && kept == levels[..|kept|]
    ensures Top(kept) <= level
    ensures forall j :: |kept| <= j < |levels| ==> level < levels[j]
    decreases |levels|
  {
    if level < Top(levels) then PopAbove(levels[..|levels| - 1], level) else levels
  }

  /** What indentDedent() decides: emit a token, or let scanning proceed
      from the state after the leading tabs. */
  datatype Resolution = Emit(step: Step) | Proceed(state: LexState)

  /** indentDedent(): count and consume the leading tabs (getCurrentIndentLevel);
      a deeper level is pushed and gives Indent; a shallower one pops every
      level above it, gives one Dedent now and queues one per further popped
      level; an equal level gives no token. */
  function IndentDedent(s: LexState): (r: Resolution)
    requires Inv(s)
    ensures r.Emit? ==> Inv(r.step.state) && r.step.state.source == s.source
    ensures r.Proceed? ==> Inv(r.state) && r.state.source == s.source
  {
    var s1 := TakeRun(s, Tabs);
    var level := s1.current - s.current;
    if level > Top(s.levels) then
      Emit(Step(SimpleToken(s1, Indent), s1.(levels := s.levels + [level])))
    else if level < Top(s.levels) then
      var kept := PopAbove(s.levels, level);
      assert Top(kept) < Top(s.levels);
      Emit(Step(SimpleToken(s1, Dedent), s1.(levels := kept, pending := |s.levels| - |kept| - 1)))
    else
      Proceed(s1)
  }

  /** next(): drain a queued Dedent; otherwise, at the start of a line, clear
      the flag and resolve the leading tabs; otherwise scan one token. */
  function NextStep(s: LexState): (r: Step)
    requires Inv(s)
    ensures Inv(r.state)
    ensures r.state.source == s.source
  {
    if s.pending > 0 then
      Step(SimpleToken(s, Dedent), s.(pending := s.pending - 1))
    else if s.lineBegin then
      match IndentDedent(s.(lineBegin := false))
      case Emit(step) => step
      case Proceed(s1) => Scan(s1)
    else
      Scan(s)
  }
}
