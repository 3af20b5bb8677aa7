/**
 * What the scanner of Lexer.cpp guarantees, proved about the state machine
 * of LexerSpec (and so, through the contracts of Lexer.Lexer, about the
 * object's methods).
 */
module LexerProperties {
  import opened Tokens
  import opened Numbers
  import opened LexerSpec

  // ---------------------------------------------------------------------
  // Runs of next() calls

  /** The tokens of n successive next() calls. */
  function Run(s: LexState, n: nat): (ts: seq<Token>)
    requires Inv(s)
    ensures |ts| == n
    decreases n
  {
    if n == 0 then [] else [NextStep(s).token] + Run(NextStep(s).state, n - 1)
  }

  /** The state after n successive next() calls. */
  function After(s: LexState, n: nat): (r: LexState)
    requires Inv(s)
    ensures Inv(r) && r.source == s.source
    decreases n
  {
    if n == 0 then s else After(NextStep(s).state, n - 1)
  }

  function Count(ts: seq<Token>, k: TokenKind): nat
  {
    if ts == [] then 0 else (if ts[0].kind == k then 1 else 0) + Count(ts[1..], k)
  }

  // ---------------------------------------------------------------------
  // Termination: every call makes progress, except Eof at the end of input

  function Remaining(s: LexState): nat
    requires s.current <= |s.source|
  {
    |s.source| - s.current
  }

  function Flag(b: bool): nat { if b then 1 else 0 }

  /** a is strictly below b in the order (input left, line-start flag,
      queued Dedents), compared lexicographically. */
  predicate Below(a: LexState, b: LexState)
    requires a.current <= |a.source| && b.current <= |b.source|
  {
    || Remaining(a) < Remaining(b)
    || (Remaining(a) == Remaining(b)
        && (Flag(a.lineBegin) < Flag(b.lineBegin)
            || (Flag(a.lineBegin) == Flag(b.lineBegin) && a.pending < b.pending)))
  }

  /** Scanning consumes input unless only blanks remain, in which case it
      returns Eof with the cursor at the end. */
  lemma ScanProgress(s: LexState)
    requires s.current <= |s.source|
    ensures var r := Scan(s);
      && (SkipBlanks(s).start < |s.source| ==> r.state.current > s.current)
      && (SkipBlanks(s).start == |s.source| ==>
            && r.token.kind == Eof && r.state.lineBegin == s.lineBegin
            && r.state.current == |s.source|)
  {
    var s1 := SkipBlanks(s);
    assert Scan(s) == Classify(s1);
  }

  /** Each call drains a queued Dedent, clears the line-start flag, or
      consumes input; the one exception is Eof at the end of the input,
      which leaves the cursor where it is. */
  lemma Progress(s: LexState)
    requires Inv(s)
    ensures var r := NextStep(s);
      || Below(r.state, s)
      || (&& r.token.kind == Eof
          && s.current == r.state.current == |s.source|
          && !s.lineBegin && !r.state.lineBegin
          && s.pending == 0 == r.state.pending)
  {
    if s.pending == 0 {
      if s.lineBegin {
        var s0 := s.(lineBegin := false);
        var res := IndentDedent(s0);
        if res.Proceed? {
          assert NextStep(s) == Scan(res.state);
          ScanProgress(res.state);
        } else {
          assert NextStep(s) == res.step;
        }
      } else {
        assert NextStep(s) == Scan(s);
        ScanProgress(s);
      }
    }
  }

  /** Repeated calls reach Eof: the tokens up to and including the first
      Eof are exactly what that many calls return. */
  function TokensUntilEof(s: LexState): (ts: seq<Token>)
    requires Inv(s)
    ensures |ts| > 0 && ts[|ts| - 1].kind == Eof
    ensures ts == Run(s, |ts|)
    decreases Remaining(s), Flag(s.lineBegin), s.pending
  {
    var r := NextStep(s);
    if r.token.kind == Eof then
      [r.token]
    else
      Progress(s);
      var rest := TokensUntilEof(r.state);
      assert Run(s, |rest| + 1) == [r.token] + rest;
      [r.token] + rest
  }

  /** The Eof that ends TokensUntilEof is the first one the calls return. */
  lemma {:induction false} FirstEof(s: LexState)
    requires Inv(s)
    ensures forall i :: 0 <= i < |TokensUntilEof(s)| - 1 ==> TokensUntilEof(s)[i].kind != Eof
    decreases Remaining(s), Flag(s.lineBegin), s.pending
  {
    var r := NextStep(s);
    if r.token.kind != Eof {
      Progress(s);
      FirstEof(r.state);
      var rest := TokensUntilEof(r.state);
      assert TokensUntilEof(s) == [r.token] + rest;
    }
  }

  /** Once Eof has been returned at the end of the input, every further call
      returns Eof again and leaves the cursor in place. */
  lemma EofRepeats(s: LexState)
    requires Inv(s) && s.current == |s.source| && s.pending == 0 && !s.lineBegin
    ensures var r := NextStep(s);
      && r.token.kind == Eof && r.token.lexeme == []
      && r.state.current == s.current && r.state.pending == 0 && !r.state.lineBegin
  {
    assert SkipBlanks(s).start == |s.source|;
  }

  // ---------------------------------------------------------------------
  // Indentation accounting

  /** The quantity an Indent raises by one and a Dedent lowers by one. */
  function Depth(s: LexState): nat
  {
    |s.levels| + s.pending
  }

  function Delta(k: TokenKind): int
  {
    if k == Indent then 1 else if k == Dedent then -1 else 0
  }

  lemma StepAccounting(s: LexState)
    requires Inv(s)
    ensures Depth(NextStep(s).state) == Depth(s) + Delta(NextStep(s).token.kind)
  {
    if s.pending == 0 && s.lineBegin {
      var res := IndentDedent(s.(lineBegin := false));
      if res.Proceed? {
        assert res.state.levels == s.levels;
      }
    }
  }

  lemma {:induction false} RunAccounting(s: LexState, n: nat)
    requires Inv(s)
    ensures Count(Run(s, n), Indent) - Count(Run(s, n), Dedent) == Depth(After(s, n)) - Depth(s)
    decreases n
  {
    if n > 0 {
      var ts := Run(s, n);
      assert ts[1..] == Run(NextStep(s).state, n - 1);
      StepAccounting(s);
      RunAccounting(NextStep(s).state, n - 1);
    }
  }

  /** From a fresh scanner, after any number of calls: Indents emitted minus
      Dedents emitted minus Dedents still queued is the stack size minus one;
      in particular the running count of Indents minus Dedents never goes
      negative. */
  lemma IndentDedentBalance(src: string, n: nat)
    ensures var s := After(Initial(src), n); var ts := Run(Initial(src), n);
      && Count(ts, Indent) - Count(ts, Dedent) - s.pending == |s.levels| - 1
      && Count(ts, Indent) >= Count(ts, Dedent)
  {
    RunAccounting(Initial(src), n);
  }

  // ---------------------------------------------------------------------
  // Queued Dedents

  /** While Dedents are queued, each call returns one of them without
      consuming input or touching anything but the queue. */
  lemma {:induction false} QueuedDedents(s: LexState, n: nat)
    requires Inv(s) && n <= s.pending
    ensures forall i :: 0 <= i < n ==> Run(s, n)[i] == SimpleToken(s, Dedent)
    ensures Count(Run(s, n), Dedent) == n
    ensures After(s, n) == s.(pending := s.pending - n)
    decreases n
  {
    if n > 0 {
      var s1 := s.(pending := s.pending - 1);
      assert NextStep(s) == Step(SimpleToken(s, Dedent), s1);
      QueuedDedents(s1, n - 1);
      assert SimpleToken(s1, Dedent) == SimpleToken(s, Dedent);
      assert Run(s, n)[1..] == Run(s1, n - 1);
    }
  }

  function LeadingTabs(src: string, i: nat): nat
    requires i <= |src|
  {
    RunEnd(src, i, Tabs) - i
  }

  /** A line start whose leading tabs fall below k levels of the stack gives
      exactly k Dedent tokens over the next k calls (one now, k - 1 queued),
      after which exactly those k levels are gone and nothing is queued. */
  lemma DedentPopsK(s: LexState)
    requires Inv(s) && s.pending == 0 && s.lineBegin
    requires LeadingTabs(s.source, s.current) < Top(s.levels)
    ensures var n := LeadingTabs(s.source, s.current);
            var kept := PopAbove(s.levels, n);
            var k := |s.levels| - |kept|;
      && k >= 1
      && (forall j :: 0 <= j < |kept| ==> kept[j] <= n)
      && (forall j :: |kept| <= j < |s.levels| ==> n < s.levels[j])
      && Count(Run(s, k), Dedent) == k
      && After(s, k).levels == kept
      && After(s, k).pending == 0
      && After(s, k).current == s.current + n
  {
    var n := LeadingTabs(s.source, s.current);
    var kept := PopAbove(s.levels, n);
    var k := |s.levels| - |kept|;
    assert Top(kept) < Top(s.levels);
    var r := NextStep(s);
    assert r.token.kind == Dedent && r.state.pending == k - 1;
    QueuedDedents(r.state, k - 1);
    assert Run(s, k)[1..] == Run(r.state, k - 1);
    assert After(s, k) == After(r.state, k - 1);
    forall j | 0 <= j < |kept|
      ensures kept[j] <= n
    {
      assert kept[j] <= Top(kept) by {
        if j < |kept| - 1 { assert s.levels[j] < s.levels[|kept| - 1]; }
      }
    }
  }

  // ---------------------------------------------------------------------
  // Indentation is resolved only at line starts, from leading tabs

  /** The state once getCurrentIndentLevel() consumed the leading tabs. */
  function AfterTabs(s: LexState): (s1: LexState)
    requires s.current <= |s.source|
    ensures s1.current == s.current + LeadingTabs(s.source, s.current)
  {
    TakeRun(s.(lineBegin := false), Tabs)
  }

  /** Scanning never produces an indentation token. */
  lemma ScanNoIndentation(s: LexState)
    requires s.current <= |s.source|
    ensures Scan(s).token.kind != Indent && Scan(s).token.kind != Dedent
  {
    assert Scan(s) == Classify(SkipBlanks(s));
  }

  /** At the start of a line (nothing queued) only the leading tabs count,
      and they are consumed. More tabs than the top of the stack: the new
      level is pushed and the call returns Indent. */
  lemma IndentAtLineStart(s: LexState)
    requires Inv(s) && s.pending == 0 && s.lineBegin
    requires LeadingTabs(s.source, s.current) > Top(s.levels)
    ensures var n := LeadingTabs(s.source, s.current); var r := NextStep(s);
      && r.token.kind == Indent
      && r.state.levels == s.levels + [n]
      && r.state.current == s.current + n
      && r.state.pending == 0 && !r.state.lineBegin
  {
    var s1 := AfterTabs(s);
    assert IndentDedent(s.(lineBegin := false))
        == Emit(Step(SimpleToken(s1, Indent), s1.(levels := s.levels + [LeadingTabs(s.source, s.current)])));
  }

  /** Fewer tabs than the top: every level above them is popped and the call
      returns Dedent, queueing one more Dedent per further popped level. */
  lemma DedentAtLineStart(s: LexState)
    requires Inv(s) && s.pending == 0 && s.lineBegin
    requires LeadingTabs(s.source, s.current) < Top(s.levels)
    ensures var n := LeadingTabs(s.source, s.current); var r := NextStep(s);
      && r.token.kind == Dedent
      && r.state.levels == PopAbove(s.levels, n)
      && r.state.pending == |s.levels| - |r.state.levels| - 1
      && r.state.current == s.current + n
      && !r.state.lineBegin
  {
    var s1 := AfterTabs(s);
    var kept := PopAbove(s.levels, LeadingTabs(s.source, s.current));
    assert IndentDedent(s.(lineBegin := false))
        == Emit(Step(SimpleToken(s1, Dedent), s1.(levels := kept, pending := |s.levels| - |kept| - 1)));
  }

  /** As many tabs as the top: no indentation token, the stack is left alone
      and the call scans a token after the tabs. */
  lemma SameLevelAtLineStart(s: LexState)
    requires Inv(s) && s.pending == 0 && s.lineBegin
    requires LeadingTabs(s.source, s.current) == Top(s.levels)
    ensures var r := NextStep(s);
      && r == Scan(AfterTabs(s))
      && AfterTabs(s) == s.(current := s.current + Top(s.levels), col := s.col + Top(s.levels), lineBegin := false)
      && r.token.kind != Indent && r.token.kind != Dedent
      && r.state.levels == s.levels
  {
    var s1 := AfterTabs(s);
    assert IndentDedent(s.(lineBegin := false)) == Proceed(s1);
    ScanNoIndentation(s1);
  }

  /** Away from a line start a tab is plain whitespace: with nothing queued,
      no call produces Indent or Dedent or changes the stack. */
  lemma MidLineNoIndentation(s: LexState)
    requires Inv(s) && s.pending == 0 && !s.lineBegin
    ensures var r := NextStep(s);
      && r == Scan(s)
      && r.token.kind != Indent && r.token.kind != Dedent
      && r.state.levels == s.levels && r.state.pending == 0
  {
  }

  /** Only Eol starts a new line: it bumps the line, resets the column and
      sets the flag that makes the next call resolve indentation. */
  lemma EolStartsLine(s: LexState)
    requires Inv(s) && (s.pending > 0 ==> !s.lineBegin)
    ensures var r := NextStep(s);
      && (r.state.lineBegin <==> r.token.kind == Eol)
      && (r.token.kind == Eol ==> r.state.line == s.line + 1 && r.state.col == 0)
      && (r.state.pending > 0 ==> !r.state.lineBegin)
  {
  }

  /** The queue starts empty and the stack starts at [0], so the first call
      can neither drain a queued Dedent nor pop: it never returns Dedent. */
  lemma FirstCallNeverDedents(src: string)
    ensures NextStep(Initial(src)).token.kind != Dedent
  {
  }

  // ---------------------------------------------------------------------
  // Tokens scanned from the first non-blank character. Scan(s) is
  // Classify(SkipBlanks(s)); SkipBlanks' contract says the blanks before
  // start were skipped and that s1.col is the column of the character at
  // start, counted from s.col.

  /** A state right after getFirstNonWhitespace() read the character at start. */
  predicate Scanned(s1: LexState)
  {
    && s1.start <= s1.current <= |s1.source|
    && s1.current == if s1.start < |s1.source| then s1.start + 1 else s1.start
  }

  /** A digit run is an integer literal; a digit run, '.', and an optional
      second digit run is a float literal (so "1." is a float). The token
      records the line and the column of its first character. */
  lemma NumberToken(s1: LexState)
    requires Scanned(s1) && IsDigit(CharAt(s1.source, s1.start))
    ensures var i := s1.start; var e := RunEnd(s1.source, i, Digits);
            var t := Classify(s1).token;
      && i < e
      && t.line == s1.line && t.col == s1.col
      && (CharAt(s1.source, e) != '.' ==>
            && t.kind == IntegerLiteral && t.lexeme == s1.source[i..e]
            && (forall j :: 0 <= j < |t.lexeme| ==> IsDigit(t.lexeme[j])))
      && (CharAt(s1.source, e) == '.' ==>
            && t.kind == FloatLiteral
            && t.lexeme == s1.source[i..RunEnd(s1.source, e + 1, Digits)])
  {
    assert Classify(s1) == Number(s1);
    assert RunEnd(s1.source, s1.start, Digits) == RunEnd(s1.source, s1.start + 1, Digits);
  }

  /** A letter or underscore starts an identifier: the maximal run of
      letters, digits and underscores, always of kind Identifier (there are
      no keywords); the column computed back from the cursor is the column
      of its first character. */
  lemma IdentifierToken(s1: LexState)
    requires Scanned(s1)
    requires var c := CharAt(s1.source, s1.start); IsAlpha(c) || c == '_'
    ensures var i := s1.start; var e := RunEnd(s1.source, i, IdentChars);
            var t := Classify(s1).token;
      && i < e
      && t.kind == Identifier
      && t.lexeme == s1.source[i..e]
      && (forall j :: 0 <= j < |t.lexeme| ==> IsIdentChar(t.lexeme[j]))
      && t.line == s1.line && t.col == s1.col
  {
    assert RunEnd(s1.source, s1.start, IdentChars) == RunEnd(s1.source, s1.start + 1, IdentChars);
  }

  /** '*' followed by '*' is StarStar, otherwise Star. */
  lemma StarToken(s1: LexState)
    requires Scanned(s1) && CharAt(s1.source, s1.start) == '*'
    ensures var i := s1.start; var t := Classify(s1).token;
      && (CharAt(s1.source, i + 1) == '*' ==> t.kind == StarStar && t.lexeme == "**")
      && (CharAt(s1.source, i + 1) != '*' ==> t.kind == Star && t.lexeme == "*")
  {
    var i := s1.start;
    if CharAt(s1.source, i + 1) == '*' {
      assert s1.source[i..i + 2] == [s1.source[i], s1.source[i + 1]];
    }
  }

  /** The single-character tokens: the lexeme is the character read. */
  lemma SingleCharToken(s1: LexState)
    requires Scanned(s1) && CharAt(s1.source, s1.start) in "()+-/\n"
    ensures var c := CharAt(s1.source, s1.start); var t := Classify(s1).token;
      && t.lexeme == [c]
      && Classify(s1).state.current == s1.start + 1
      && t.kind == (if c == '(' then OpenParen else if c == ')' then CloseParen
                    else if c == '+' then Plus else if c == '-' then Minus
                    else if c == '/' then Slash else Eol)
  {
  }

  /** NUL, read past the end, is Eof with an empty lexeme. */
  lemma EndOfInputToken(s1: LexState)
    requires Scanned(s1) && s1.start == |s1.source|
    ensures Classify(s1).token.kind == Eof && Classify(s1).token.lexeme == []
    ensures Classify(s1).state == s1
  {
  }

  /** Any other character gives an Error token whose lexeme is the message
      "Unknown character"; the character is consumed. */
  lemma UnknownCharacterToken(s1: LexState)
    requires Scanned(s1)
    requires var c := CharAt(s1.source, s1.start);
      c !in "()+-*/\0\n" && !IsDigit(c) && !IsAlpha(c) && c != '_'
    ensures var r := Classify(s1);
      && r.token.kind == Error
      && r.token.lexeme == "Unknown character"
      && s1.start < |s1.source|
      && r.state == s1
  {
  }
}
