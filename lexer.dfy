/**
 * The scanner object of Lexer.hpp / Lexer.cpp. Every method updates the
 * fields in place as the source does, and is proved to leave exactly the
 * state (and return exactly the token) that the value-level functions of
 * LexerSpec describe; the properties themselves are proved about those
 * functions in LexerProperties.
 */
module Lexer {
  import opened Tokens
  import opened Numbers
  import opened LexerSpec

  class Lexer {
    /** The source is a read-only view: no method assigns it. */
    const source: string
    var current: nat
    var start: nat
    var line: nat
    var col: nat
    var indentLevels: seq<nat>
    var dedentEmitCount: nat
    var lineBegin: bool

    /** The fields, as one value. */
    function State(): LexState
      reads this
    {
      LexState(source, current, start, line, col, indentLevels, dedentEmitCount, lineBegin)
    }

    ghost predicate Valid()
      reads this
    {
      Inv(State())
    }

    constructor (src: string)
      ensures State() == Initial(src)
      ensures Valid()
    {
      source := src;
      current, start := 0, 0;
      line, col := 1, 0;
      indentLevels := [0];
      dedentEmitCount := 0;
      lineBegin := true;
    }

    /** Reads the character under the cursor, NUL past the end. */
    function Peek(): (c: char)
      reads this
      ensures current < |source| ==> c == source[current]
      ensures current >= |source| ==> c == '\0'
    {
      CharAt(source, current)
    }

    method Advance() returns (c: char)
      modifies this
      ensures c == CharAt(source, old(current))
      ensures State() == Advanced(old(State()))
    {
      if current < |source| {
        c := source[current];
        current := current + 1;
      } else {
        c := '\0';
      }
      col := col + 1;
    }

    method GetFirstNonWhitespace() returns (c: char)
      requires current <= |source|
      modifies this
      ensures State() == SkipBlanks(old(State()))
      ensures c == CharAt(source, start)
    {
      ghost var target := SkipBlanks(State());
      start := current;
      c := Advance();
      while IsBlank(c)
        invariant start <= current <= |source|
        invariant c == CharAt(source, start)
        invariant current == if start < |source| then start + 1 else start
        invariant IsBlank(c) ==> SkipBlanks(State()) == target
        invariant !IsBlank(c) ==> State() == target
        decreases |source| - current + (if IsBlank(c) then 1 else 0)
      {
        start := current;
        c := Advance();
      }
    }

    method Match(expected: char) returns (matched: bool)
      modifies this
      ensures matched == (CharAt(source, old(current)) == expected)
      ensures State() == if matched then Advanced(old(State())) else old(State())
    {
      if Peek() == expected {
        var _ := Advance();
        return true;
      }
      return false;
    }

    /** simple(type): a token of that kind whose lexeme is the text from
        the token start to the cursor, at the current line and column. */
    function Simple(kind: TokenKind): (t: Token)
      reads this
      requires start <= current <= |source|
      ensures t.kind == kind && t.lexeme == source[start..current]
      ensures t.line == line && t.col == col
    {
      SimpleToken(State(), kind)
    }

    /** error(msg): an Error token whose lexeme is the message, at the
        current line and column. */
    function Error(msg: string): (t: Token)
      reads this
      ensures t.kind == TokenKind.Error && t.lexeme == msg
      ensures t.line == line && t.col == col
    {
      ErrorToken(State(), msg)
    }

    method EndOfLine() returns (t: Token)
      requires start <= current <= |source|
      modifies this
      ensures Step(t, State()) == LexerSpec.EndOfLine(old(State()))
    {
      t := Simple(Eol);
      line := line + 1;
      col := 0;
      lineBegin := true;
    }

    /** getCurrentIndentLevel(): consumes the leading tabs and counts them. */
    method GetCurrentIndentLevel() returns (level: nat)
      requires current <= |source|
      modifies this
      ensures State() == TakeRun(old(State()), Tabs)
      ensures level == current - old(current)
    {
      level := 0;
      while Peek() == '\t'
        invariant old(current) <= current <= RunEnd(source, old(current), Tabs)
        invariant RunEnd(source, current, Tabs) == RunEnd(source, old(current), Tabs)
        invariant level == current - old(current)
        invariant State() == old(State()).(current := current, col := old(col) + level)
        decreases |source| - current
      {
        var _ := Advance();
        level := level + 1;
      }
    }

    /** determineLevelsOfDedent(level): pops each level above the given one
        and counts the pops. */
    method DetermineLevelsOfDedent(level: nat) returns (dedents: nat)
      requires |indentLevels| > 0 && indentLevels[0] <= level
      modifies this
      ensures indentLevels == PopAbove(old(indentLevels), level)
      ensures dedents == |old(indentLevels)| - |indentLevels|
      ensures State() == old(State()).(levels := indentLevels)
    {
      dedents := 0;
      while level < indentLevels[|indentLevels| - 1]
        invariant 0 < |indentLevels| <= |old(indentLevels)|
        invariant indentLevels[0] == old(indentLevels)[0]
        invariant PopAbove(indentLevels, level) == PopAbove(old(indentLevels), level)
        invariant dedents == |old(indentLevels)| - |indentLevels|
        invariant State() == old(State()).(levels := indentLevels)
        decreases |indentLevels|
      {
        indentLevels := indentLevels[..|indentLevels| - 1];
        dedents := dedents + 1;
      }
    }

    /** indentDedent(token_out): true when it produced a token. */
    method IndentDedent() returns (emitted: bool, t: Token)
      requires Valid()
      modifies this
      ensures emitted == LexerSpec.IndentDedent(old(State())).Emit?
      ensures emitted ==> Step(t, State()) == LexerSpec.IndentDedent(old(State())).step
      ensures !emitted ==> State() == LexerSpec.IndentDedent(old(State())).state
    {
      var level := GetCurrentIndentLevel();
      var top := indentLevels[|indentLevels| - 1];
      if level > top {
        indentLevels := indentLevels + [level];
        return true, Simple(Indent);
      } else if level < top {
        var dedents := DetermineLevelsOfDedent(level);
        dedentEmitCount := dedents - 1;
        return true, Simple(Dedent);
      } else {
        return false, Simple(Eof);
      }
    }

    /** The `while (isdigit(peek())) advance();` loops of number(). */
    method SkipDigits()
      requires start <= current <= |source|
      modifies this
      ensures State() == TakeRun(old(State()), Digits)
    {
      ghost var entry := State();
      while IsDigit(Peek())
        invariant entry.current <= current <= RunEnd(source, entry.current, Digits)
        invariant RunEnd(source, current, Digits) == RunEnd(source, entry.current, Digits)
        invariant State() == entry.(current := current, col := entry.col + (current - entry.current))
        decreases |source| - current
      {
        var _ := Advance();
      }
    }

    method Number() returns (t: Token)
      requires start <= current <= |source|
      modifies this
      ensures Step(t, State()) == LexerSpec.Number(old(State()))
    {
      var tokenLine, tokenCol := line, col;
      SkipDigits();
      var dot := Match('.');
      if !dot {
        return Token(IntegerLiteral, source[start..current], tokenLine, tokenCol);
      }
      SkipDigits();
      return Token(FloatLiteral, source[start..current], tokenLine, tokenCol);
    }

    method IdentifierOrKeyword() returns (t: Token)
      requires start + 1 == current <= |source|
      modifies this
      ensures Step(t, State()) == LexerSpec.IdentifierOrKeyword(old(State()))
    {
      while IsIdentChar(Peek())
        invariant old(current) <= current <= RunEnd(source, old(current), IdentChars)
        invariant RunEnd(source, current, IdentChars) == RunEnd(source, old(current), IdentChars)
        invariant State() == old(State()).(current := current, col := old(col) + (current - old(current)))
        decreases |source| - current
      {
        var _ := Advance();
      }
      return Token(Identifier, source[start..current], line, col - (current - start - 1));
    }

    method Next() returns (t: Token)
      requires Valid()
      modifies this
      ensures Valid()
      ensures Step(t, State()) == NextStep(old(State()))
    {
      if dedentEmitCount > 0 {
        dedentEmitCount := dedentEmitCount - 1;
        return Simple(Dedent);
      }
      if lineBegin {
        lineBegin := false;
        var emitted, token := IndentDedent();
        if emitted {
          return token;
        }
      }
      var c := GetFirstNonWhitespace();
      if c == '(' {
        t := Simple(OpenParen);
      } else if c == ')' {
        t := Simple(CloseParen);
      } else if c == '+' {
        t := Simple(Plus);
      } else if c == '-' {
        t := Simple(Minus);
      } else if c == '*' {
        var double := Match('*');
        t := Simple(if double then StarStar else Star);
      } else if c == '/' {
        t := Simple(Slash);
      } else if c == '\0' {
        t := Simple(Eof);
      } else if c == '\n' {
        t := EndOfLine();
      } else if IsDigit(c) {
        t := Number();
      } else if IsAlpha(c) || c == '_' {
        t := IdentifierOrKeyword();
      } else {
        t := Error(UnknownCharacter);
      }
    }
  }
}
