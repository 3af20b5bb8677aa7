# NitroCPP front end in Dafny

A verified model of the expression front end of NitroCPP:

- the indentation-aware scanner (`Lexer`);
- the precedence-climbing expression parser (`Parser`);
- the expression tree it builds;
- the pretty printer that writes a tree as tab-indented lines;
- the C runtime value, a tagged union.

Modules and files:

| file | module | what it holds |
|---|---|---|
| `wrappers.dfy` | `Wrappers` | `Option` |
| `numbers.dfy` | `Numbers` | `int64`, abstract doubles, decimal digit strings, `strtoll` and `operator<<` on integers |
| `tokens.dfy` | `Tokens` | the token record and the closed set of token kinds |
| `lexer_spec.dfy` | `LexerSpec` | the scanner as a state machine over values: `NextStep` is one `next()` call |
| `lexer.dfy` | `Lexer` | the scanner object (`class Lexer`), whose methods update its fields in place and are proved to take exactly the steps of `LexerSpec` |
| `lexer_properties.dfy` | `LexerProperties` | termination, the indentation invariant, Dedent counting, token shapes |
| `ast.dfy` | `Ast` | the tree: constants, Nil, unary and binary nodes, each with its token; children are `Option`s |
| `parser_spec.dfy` | `ParserSpec` | the parser as functions over a token sequence ending in Eof |
| `parser.dfy` | `Parser` | the parser object (`class Parser`) with its two-token window; every method is proved to return what `ParserSpec` gives |
| `parser_properties.dfy` | `ParserProperties` | printing a tree with the fewest parentheses and parsing it back gives the same tree |
| `parser_examples.dfy` | `ParserExamples` | precedence, associativity and the error paths on concrete token shapes |
| `printer_spec.dfy` | `PrinterSpec` | the lines a printer at depth d writes for a tree |
| `printer.dfy` | `Printer` | the printer objects sharing one output stream |
| `printer_properties.dfy` | `PrinterProperties` | indentation, depth shifting, line counts, and what the output determines |
| `value.dfy` | `Value` | the `NitroValue` tagged union, its constructors and predicates |

How the pieces fit together:

- The scanner's `next()` is modelled twice:
  - `LexerSpec.NextStep` is a function on a `LexState` value;
  - `Lexer.Lexer.Next` is a method that updates the object's fields.

  The method's postcondition says it returns the same token and leaves the same state as the function. Every property is proved about the function, so it holds of the object too.
- The same pattern applies to the parser:
  - each `parseX()` is a method of `Parser.Parser`, a `for (;;)` loop that reassigns `lhs`;
  - the body of each loop is a method of its own (`OrAndTurn` … `PowTurn`), one turn of the loop;
  - the method is proved equal to `ParserSpec.Parse` at the matching level, and to leave `m_previous` on the last token it consumed (a ghost index `prevPos` tracks where `m_previous` came from).
- The parser reads the tokens that successive `next()` calls return. This is modelled as a sequence ending in Eof plus an index. `LexerProperties.TokensUntilEof` shows that the scanner yields exactly such a sequence.

Points where the model follows the code closely:

- **`**` is left-associative.** `parsePow` loops like every other tier (src/Parser/Parser.cpp:252-270). `ParserExamples.PowLeftAssociative` proves that `a ** b ** c` is `Pow(Pow(a, b), c)`.
- **Which token a node carries.** In the code, `m_previous` is read only after the operand has been parsed, so a node gets the operand's last token rather than its operator's (recorded under "## Findings"). The parser takes the node-token rule as a constant:
  - `AsWritten` reads `m_previous` after the operand, as the code does;
  - `Corrected` builds each node with the operator token just matched.

  `ParserSpec.RulesAgree` proves that the two rules stop at the same token and build trees that differ only in their tokens. The round trip and the examples are proved exactly for `Corrected` and carried to `AsWritten` up to tokens.
- **Token kinds.** The scanner and the parser come from different revisions. The token kinds are therefore the union of those the scanner emits and those the parser matches. The binary operators are the header's five plus the thirteen more that `Parser.cpp` builds. Their ordinals are the header's for the first five; the rest follow in the order `Parser.cpp` builds them, which is a modelling choice.

## Model

| member | source | states |
|---|---|---|
| LexerSpec.Initial | src/Lexer/Lexer.cpp:7-8 | the state after construction satisfies the scanner invariant: stack `[0]`, nothing queued |
| LexerSpec.RunEnd | src/Lexer/Lexer.cpp:106-108 | the end of the maximal run of a character class: every character before it is in the class and the one at it (NUL past the end) is not |
| LexerSpec.TakeRun | src/Lexer/Lexer.cpp:69-72 | a `while (pred(peek())) advance();` loop moves the cursor to the end of the run, moves the column by as much and changes nothing else |
| LexerSpec.SkipBlanks | src/Lexer/Lexer.cpp:20-29 | `start` lands on the first character that is not a space or tab; everything skipped is blank; the cursor is one past `start` unless at the end; only cursor, start and column change |
| LexerSpec.Number | src/Lexer/Lexer.cpp:102-129 | number() leaves `start` alone, moves only the cursor and the column, and stays within the source |
| LexerSpec.IdentifierOrKeyword | src/Lexer/Lexer.cpp:140-151 | identifierOrKeyword() moves only the cursor and the column, within the source |
| LexerSpec.Scan | src/Lexer/Lexer.cpp:167-190 | skipping blanks and classifying never touches the stack, the queue or the source; the line-start flag is set exactly by Eol |
| LexerSpec.Classify | src/Lexer/Lexer.cpp:169-190 | the switch on the character read keeps the stack, queue and source; only Eol sets the line-start flag; at the end of the input it returns Eof and changes nothing |
| LexerSpec.PopAbove | src/Lexer/Lexer.cpp:76-83 | determineLevelsOfDedent pops exactly the levels above the given one: what is kept is a non-empty prefix whose top is at most the level, and every popped level is above it |
| LexerSpec.IndentDedent | src/Lexer/Lexer.cpp:85-100 | indentDedent() keeps the stack non-empty, 0 at the bottom and strictly increasing, whether it emits a token or not |
| LexerSpec.NextStep | src/Lexer/Lexer.cpp:153-191 | next() preserves the scanner invariant and never changes the source |
| Lexer.Lexer.constructor | src/Lexer/Lexer.cpp:7-8 | the new object's fields are the initial state, and it satisfies the invariant |
| Lexer.Lexer.Advance | src/Lexer/Lexer.cpp:10-18 | returns the character under the cursor (NUL past the end); the cursor moves only within the source, and the column always moves |
| Lexer.Lexer.Peek | src/Lexer/Lexer.cpp:31-33 | the character under the cursor, or NUL at the end of the source |
| Lexer.Lexer.Simple | src/Lexer/Lexer.cpp:43-50 | a token of the given kind whose lexeme is the source from `start` to the cursor, at the current line and column |
| Lexer.Lexer.Error | src/Lexer/Lexer.cpp:131-138 | an Error token whose lexeme is the message, at the current line and column |
| Lexer.Lexer.GetFirstNonWhitespace | src/Lexer/Lexer.cpp:20-29 | the do/while loop leaves exactly the `SkipBlanks` state and returns the character at `start` |
| Lexer.Lexer.Match | src/Lexer/Lexer.cpp:35-41 | consumes one character exactly when it is the expected one, and otherwise changes nothing |
| Lexer.Lexer.EndOfLine | src/Lexer/Lexer.cpp:52-63 | returns the Eol token and leaves the next line at column 0, as `LexerSpec.EndOfLine` |
| Lexer.Lexer.GetCurrentIndentLevel | src/Lexer/Lexer.cpp:65-74 | consumes the leading tabs and returns how many there were |
| Lexer.Lexer.DetermineLevelsOfDedent | src/Lexer/Lexer.cpp:76-83 | pops the stack in place to `PopAbove`, returns the number of pops and changes nothing else |
| Lexer.Lexer.IndentDedent | src/Lexer/Lexer.cpp:85-100 | pushes a deeper level and returns Indent, pops to a shallower one and returns Dedent with the rest queued, or returns no token, exactly as `LexerSpec.IndentDedent` |
| Lexer.Lexer.SkipDigits | src/Lexer/Lexer.cpp:106-108 | the digit loop stops at the end of the digit run |
| Lexer.Lexer.Number | src/Lexer/Lexer.cpp:102-129 | returns the token and leaves the state of `LexerSpec.Number` |
| Lexer.Lexer.IdentifierOrKeyword | src/Lexer/Lexer.cpp:140-151 | returns the token and leaves the state of `LexerSpec.IdentifierOrKeyword` |
| Lexer.Lexer.Next | src/Lexer/Lexer.cpp:153-191 | keeps the invariant and returns exactly the token and state of `LexerSpec.NextStep` |
| LexerProperties.Run | src/Lexer/Lexer.cpp:153-191 | n successive calls give n tokens |
| LexerProperties.After | src/Lexer/Lexer.cpp:153-191 | the state after n calls still satisfies the invariant, over the same source |
| LexerProperties.ScanProgress | src/Lexer/Lexer.cpp:167-190 | scanning consumes input unless only blanks remain, and then returns Eof at the end of the input |
| LexerProperties.Progress | src/Lexer/Lexer.cpp:153-191 | each call drains a queued Dedent, clears the line-start flag or consumes input; the only exception is Eof at the end, which leaves the cursor in place |
| LexerProperties.TokensUntilEof | src/Lexer/Lexer.cpp:153-191 | repeated calls reach Eof: the tokens up to it are exactly what that many calls return |
| LexerProperties.FirstEof | src/Lexer/Lexer.cpp:177 | no token before the final one of `TokensUntilEof` is Eof |
| LexerProperties.EofRepeats | src/Lexer/Lexer.cpp:10-18 | once the input is used up, every further call returns Eof with an empty lexeme and leaves the cursor in place |
| LexerProperties.StepAccounting | src/Lexer/Lexer.cpp:85-100 | one call raises stack size plus queued Dedents by one on Indent, lowers it by one on Dedent, and otherwise keeps it |
| LexerProperties.RunAccounting | src/Lexer/Lexer.cpp:153-191 | over n calls, Indents minus Dedents is the change in stack size plus queued Dedents |
| LexerProperties.IndentDedentBalance | src/Lexer/Lexer.cpp:88-95 | from a fresh scanner: Indents minus Dedents emitted minus Dedents queued is the stack size minus one, and Dedents never outnumber Indents |
| LexerProperties.QueuedDedents | src/Lexer/Lexer.cpp:154-157 | while Dedents are queued, each call returns one without consuming input or changing anything but the queue |
| LexerProperties.DedentPopsK | src/Lexer/Lexer.cpp:88-95 | a line start that pops k levels gives exactly k Dedents over the next k calls (one now, k - 1 queued); then exactly those levels are gone and nothing is queued |
| LexerProperties.AfterTabs | src/Lexer/Lexer.cpp:65-74 | consuming the leading tabs moves the cursor by their number |
| LexerProperties.ScanNoIndentation | src/Lexer/Lexer.cpp:169-190 | the character switch never produces Indent or Dedent |
| LexerProperties.IndentAtLineStart | src/Lexer/Lexer.cpp:88-91 | more leading tabs than the top: the level is pushed, the tabs are consumed and Indent is returned |
| LexerProperties.DedentAtLineStart | src/Lexer/Lexer.cpp:92-95 | fewer tabs than the top: every level above is popped, Dedent is returned and one more per further popped level is queued |
| LexerProperties.SameLevelAtLineStart | src/Lexer/Lexer.cpp:96-98 | as many tabs as the top: no indentation token, the stack is unchanged and a token after the tabs is scanned |
| LexerProperties.MidLineNoIndentation | src/Lexer/Lexer.cpp:159-165 | away from a line start, tabs are plain whitespace: no Indent or Dedent and no stack change |
| LexerProperties.EolStartsLine | src/Lexer/Lexer.cpp:52-63 | the line-start flag is set exactly by Eol, which bumps the line and resets the column to 0 |
| LexerProperties.FirstCallNeverDedents | src/Lexer/Lexer.hpp:45 | the queue starts empty and the stack at `[0]`, so the first call never returns Dedent |
| LexerProperties.NumberToken | src/Lexer/Lexer.cpp:102-129 | a digit run is an IntegerLiteral of only digits; digits, '.' and optional digits are a FloatLiteral; the token has the line and column of its first digit |
| LexerProperties.IdentifierToken | src/Lexer/Lexer.cpp:140-151 | a letter or '_' starts a maximal identifier run, always of kind Identifier, whose column is that of its first character |
| LexerProperties.StarToken | src/Lexer/Lexer.cpp:174 | '*' followed by '*' is StarStar "**", otherwise Star "*" |
| LexerProperties.SingleCharToken | src/Lexer/Lexer.cpp:170-175 | each single-character token has that character as its lexeme and the matching kind, and consumes exactly it |
| LexerProperties.EndOfInputToken | src/Lexer/Lexer.cpp:177 | NUL read past the end is Eof with an empty lexeme, and nothing changes |
| LexerProperties.UnknownCharacterToken | src/Lexer/Lexer.cpp:186 | any other character is consumed and gives an Error token whose lexeme is "Unknown character" |
| Numbers.NatToDigits | src/AST/ASTPrettyPrinter.cpp:19 | the shortest decimal text: non-empty, all digits, no leading zero |
| Numbers.DigitsOfNat | src/AST/ASTPrettyPrinter.cpp:19 | reading the printed digits back gives the number |
| Numbers.NatOfDigits | src/Parser/Parser.cpp:307-309 | every canonical digit string is the printing of its value |
| Numbers.StrToLLOfDigits | src/Parser/Parser.cpp:307-309 | on an all-digit lexeme, strtoll gives its base-10 value, clamped to the int64 maximum |
| Numbers.StrToLLOfIntToString | src/Parser/Parser.cpp:307-309 | strtoll reads back exactly the int64 that `operator<<` writes |
| Ast.BinaryOrdinal | src/AST/ASTNodeBinary.hpp:11-17 | ordinals are below 18, and the header's five enumerators are exactly those below 5 |
| Ast.BinaryOrdinalBijective | src/AST/ASTNodeBinary.hpp:11-17 | ordinals and operators are in one-to-one correspondence over 0..17 |
| Ast.UnaryOrdinalBijective | src/AST/ASTNodeUnary.hpp:11-16 | Plus, Negate, Not and BitwiseNot are numbered 0..3 one-to-one |
| Ast.Children | src/AST/ASTNodeBinary.hpp:34-36 | constants and Nil are leaves; a unary node has at most one child, a binary node at most two, and each child is smaller than its parent |
| Ast.SizeOfChildren | src/AST/ASTNodeUnary.hpp:30 | a tree's size is one more than the sum of its children's sizes |
| ParserSpec.OpTier | src/Parser/Parser.cpp:27-270 | every binary operator belongs to one of the eight tiers below the prefix level |
| ParserSpec.TierOp | src/Parser/Parser.cpp:27-270 | the operator a tier builds on a token kind is of that tier and is matched on that kind |
| ParserSpec.TierOpComplete | src/Parser/Parser.cpp:27-270 | each operator is built by its own tier on its own kind |
| ParserSpec.TierOpIff | src/Parser/Parser.cpp:27-270 | a tier builds op on kind k exactly when both are op's: no kind is an operator of two tiers |
| ParserSpec.PrefixOpIff | src/Parser/Parser.cpp:272-301 | parsePrefix builds op exactly on op's kind |
| ParserSpec.NodeToken | src/Parser/Parser.cpp:33-34 | the token a node is built with is one of the input tokens |
| ParserSpec.LiteralValue | src/Parser/Parser.cpp:304-309 | a Float literal holds the abstract double named by its own lexeme (not what `strtod` reads beyond it, see "## Left out"); any other literal holds an int64, which for an all-digit lexeme is its decimal value clamped to the int64 maximum |
| ParserSpec.Parse | src/Parser/Parser.cpp:19-25 | parsing from a position never moves backwards and never consumes the final Eof |
| ParserSpec.ParseTier | src/Parser/Parser.cpp:27-270 | a tier never moves backwards and never consumes the final Eof |
| ParserSpec.ParsePrefix | src/Parser/Parser.cpp:272-301 | parsePrefix never moves backwards and never consumes the final Eof |
| ParserSpec.ParsePrimary | src/Parser/Parser.cpp:303-321 | parsePrimary never moves backwards and never consumes the final Eof |
| ParserSpec.TierLoop | src/Parser/Parser.cpp:30-52 | the tier loop never moves backwards and never consumes the final Eof |
| ParserSpec.TierStops | src/Parser/Parser.cpp:27-270 | a tier stops only at a token that is no operator of its own tier or a tighter one |
| ParserSpec.TierLoopStops | src/Parser/Parser.cpp:30-52 | the loop of a tier stops only at a token that is no operator of its own tier or a tighter one |
| ParserSpec.ParseFaithful | src/Parser/Parser.cpp:33-34 | with the corrected node-token rule, every node built carries a token of its own kind, and every constant holds the value read from its literal |
| ParserSpec.PrimaryFaithful | src/Parser/Parser.cpp:303-321 | parsePrimary's result is faithful to the tokens |
| ParserSpec.PrefixFaithful | src/Parser/Parser.cpp:272-301 | parsePrefix's result is faithful to the tokens |
| ParserSpec.TierLoopFaithful | src/Parser/Parser.cpp:30-52 | a tier loop started on a faithful left operand gives a faithful result |
| ParserSpec.TierLoopStep | src/Parser/Parser.cpp:30-52 | under either node-token rule, one turn of a tier loop on a matched operator builds that operator's node, on the rule's token, and continues after the operand |
| ParserSpec.TierEntry | src/Parser/Parser.cpp:27-30 | under either rule, a tier starts its loop on what the next level returned |
| ParserSpec.TierLoopStop | src/Parser/Parser.cpp:48-53 | under either rule, a tier loop on a token that is no operator of its tier returns lhs and consumes nothing |
| ParserSpec.TierPassThrough | src/Parser/Parser.cpp:27-270 | a tier whose loop stops at once passes the next level's result on unchanged, under either node-token rule |
| ParserSpec.PrefixPassThrough | src/Parser/Parser.cpp:298-300 | under either rule, parsePrefix on a token that is no prefix operator is parsePrimary |
| ParserSpec.PrimaryGroup | src/Parser/Parser.cpp:310-316 | under either rule, on '(' parsePrimary returns the inner expression and consumes the ')' that follows it |
| ParserSpec.RulesAgree | src/Parser/Parser.cpp:19-321 | at every level, the code as written and the corrected rule stop at the same token and build trees that differ only in their tokens |
| ParserSpec.PrefixRulesAgree | src/Parser/Parser.cpp:272-301 | the same for parsePrefix |
| ParserSpec.PrimaryRulesAgree | src/Parser/Parser.cpp:303-321 | the same for parsePrimary |
| ParserSpec.TierLoopsAgree | src/Parser/Parser.cpp:30-52 | a tier loop started under the two rules on left operands of the same shape stops at the same token with results of the same shape |
| ParserSpec.AsWrittenNegationKeepsOperandToken | src/Parser/Parser.cpp:275-277 | as written, `-1` parses to a negation node carrying the literal `1` token instead of `-`, so the tree is not faithful to its tokens |
| ParserSpec.NegatedOne | src/Parser/Parser.cpp:275-277 | the tokens of `-1` form a well-formed sequence of three |
| ParserSpec.AsWrittenNegationPrefix | src/Parser/Parser.cpp:272-283 | as written, parsePrefix on `-1` builds the negation with the operand's token |
| Parser.Parser.constructor | src/Parser/Parser.cpp:12-17 | keeps the tokens and the node-token rule; both window tokens are the first token; no tree, no error, no panic |
| Parser.Parser.Advance | src/Parser/Parser.hpp:18-22 | the current token moves into the previous one and exactly one new token is pulled; past the final Eof the scanner keeps returning Eof |
| Parser.Parser.Match | src/Parser/Parser.hpp:24-30 | returns true exactly when the current kind is the one asked for; then the previous token is the matched one; otherwise the window and the scanner are untouched |
| Parser.Parser.Parse | src/Parser/Parser.cpp:19-21 | returns the one expression that `ParserSpec.Parse` reads from the current token under the parser's rule, leaves the tokens after it unconsumed and `m_previous` on the last token consumed; the error flags are outside its frame |
| Parser.Parser.ParseExpression | src/Parser/Parser.cpp:23-25 | returns what tier 0 reads, leaving `m_previous` on the last token consumed |
| Parser.Parser.ParseOrAnd | src/Parser/Parser.cpp:27-54 | the tier-0 loop returns what `ParserSpec.Parse` gives at level 0 under the parser's rule, leaving `m_previous` on the last token consumed |
| Parser.Parser.OrAndTurn | src/Parser/Parser.cpp:30-51 | one turn of the tier-0 loop: on a tier-0 operator it consumes the operator and the operand and continues the loop exactly as `ParserSpec.TierLoop` does, with `m_previous` on the last token consumed; on any other token it consumes nothing and the loop ends with lhs |
| Parser.Parser.MatchTier0 | src/Parser/Parser.cpp:31-50 | matches `||` or `&&`, consuming it, exactly when tier 0 builds an operator on the current token |
| Parser.Parser.ParseBitwiseOrAndXor | src/Parser/Parser.cpp:56-91 | the tier-1 loop returns what `ParserSpec.Parse` gives at level 1 under the parser's rule, leaving `m_previous` on the last token consumed |
| Parser.Parser.BitwiseOrAndXorTurn | src/Parser/Parser.cpp:59-88 | one turn of the tier-1 loop: on a tier-1 operator it consumes the operator and the operand and continues the loop exactly as `ParserSpec.TierLoop` does, with `m_previous` on the last token consumed; on any other token it consumes nothing and the loop ends with lhs |
| Parser.Parser.MatchTier1 | src/Parser/Parser.cpp:56-91 | matches `\|`, `&` or `^` exactly when tier 1 builds an operator on the current token |
| Parser.Parser.ParseEqualNotEqual | src/Parser/Parser.cpp:93-120 | the tier-2 loop returns what `ParserSpec.Parse` gives at level 2 under the parser's rule, leaving `m_previous` on the last token consumed |
| Parser.Parser.EqualNotEqualTurn | src/Parser/Parser.cpp:96-117 | one turn of the tier-2 loop: on a tier-2 operator it consumes the operator and the operand and continues the loop exactly as `ParserSpec.TierLoop` does, with `m_previous` on the last token consumed; on any other token it consumes nothing and the loop ends with lhs |
| Parser.Parser.MatchTier2 | src/Parser/Parser.cpp:93-120 | matches `==` or `!=` exactly when tier 2 builds an operator on the current token |
| Parser.Parser.ParseGreaterLessAndEqual | src/Parser/Parser.cpp:122-164 | the tier-3 loop returns what `ParserSpec.Parse` gives at level 3 under the parser's rule, leaving `m_previous` on the last token consumed |
| Parser.Parser.GreaterLessAndEqualTurn | src/Parser/Parser.cpp:125-161 | one turn of the tier-3 loop: on a tier-3 operator it consumes the operator and the operand and continues the loop exactly as `ParserSpec.TierLoop` does, with `m_previous` on the last token consumed; on any other token it consumes nothing and the loop ends with lhs |
| Parser.Parser.MatchTier3 | src/Parser/Parser.cpp:122-164 | matches `>`, `>=`, `<` or `<=` exactly when tier 3 builds an operator on the current token |
| Parser.Parser.ParseLShiftRShift | src/Parser/Parser.cpp:166-194 | the tier-4 loop returns what `ParserSpec.Parse` gives at level 4 under the parser's rule, leaving `m_previous` on the last token consumed |
| Parser.Parser.LShiftRShiftTurn | src/Parser/Parser.cpp:169-191 | one turn of the tier-4 loop: on a tier-4 operator it consumes the operator and the operand and continues the loop exactly as `ParserSpec.TierLoop` does, with `m_previous` on the last token consumed; on any other token it consumes nothing and the loop ends with lhs |
| Parser.Parser.MatchTier4 | src/Parser/Parser.cpp:166-194 | matches `>>` or `<<` exactly when tier 4 builds an operator on the current token |
| Parser.Parser.ParsePlusMinus | src/Parser/Parser.cpp:196-222 | the tier-5 loop returns what `ParserSpec.Parse` gives at level 5 under the parser's rule, leaving `m_previous` on the last token consumed |
| Parser.Parser.PlusMinusTurn | src/Parser/Parser.cpp:199-219 | one turn of the tier-5 loop: on a tier-5 operator it consumes the operator and the operand and continues the loop exactly as `ParserSpec.TierLoop` does, with `m_previous` on the last token consumed; on any other token it consumes nothing and the loop ends with lhs |
| Parser.Parser.MatchTier5 | src/Parser/Parser.cpp:196-222 | matches `+` or `-` exactly when tier 5 builds an operator on the current token |
| Parser.Parser.ParseMultiplyDivide | src/Parser/Parser.cpp:224-250 | the tier-6 loop returns what `ParserSpec.Parse` gives at level 6 under the parser's rule, leaving `m_previous` on the last token consumed |
| Parser.Parser.MultiplyDivideTurn | src/Parser/Parser.cpp:227-247 | one turn of the tier-6 loop: on a tier-6 operator it consumes the operator and the operand and continues the loop exactly as `ParserSpec.TierLoop` does, with `m_previous` on the last token consumed; on any other token it consumes nothing and the loop ends with lhs |
| Parser.Parser.MatchTier6 | src/Parser/Parser.cpp:224-250 | matches `*` or `/` exactly when tier 6 builds an operator on the current token |
| Parser.Parser.ParsePow | src/Parser/Parser.cpp:252-270 | the tier-7 loop returns what `ParserSpec.Parse` gives at level 7 under the parser's rule, leaving `m_previous` on the last token consumed |
| Parser.Parser.PowTurn | src/Parser/Parser.cpp:255-267 | one turn of the tier-7 loop: on a tier-7 operator it consumes the operator and the operand and continues the loop exactly as `ParserSpec.TierLoop` does, with `m_previous` on the last token consumed; on any other token it consumes nothing and the loop ends with lhs |
| Parser.Parser.MatchTier7 | src/Parser/Parser.cpp:252-270 | matches `**` exactly when tier 7 builds an operator on the current token |
| Parser.Parser.MatchPrefix | src/Parser/Parser.cpp:272-301 | matches `+`, `-`, `!` or `~` exactly when parsePrefix builds an operator on the current token |
| Parser.Parser.ParsePrefix | src/Parser/Parser.cpp:272-301 | returns what `ParserSpec.ParsePrefix` gives under the parser's rule, leaving `m_previous` on the last token consumed |
| Parser.Parser.ParsePrimary | src/Parser/Parser.cpp:303-321 | returns what `ParserSpec.ParsePrimary` gives: a literal, a parenthesised expression, or null, leaving `m_previous` on the last token consumed |
| ParserProperties.Tier | src/Parser/Parser.cpp:27-301 | a tree's grammar level is at most the prefix level |
| ParserProperties.Unparse | src/Parser/Parser.cpp:27-321 | a tree prints as a non-empty token sequence |
| ParserProperties.Lay | src/Parser/Parser.cpp:27-321 | where the printed tokens of a tree end, when they stand in the input, always strictly inside it |
| ParserProperties.UnparseLay | src/Parser/Parser.cpp:27-321 | a printed tree with a token after it is laid out as `Lay` reads it |
| ParserProperties.OccursLay | src/Parser/Parser.cpp:27-321 | wherever the printed tokens of a tree stand, with a token after them, `Lay` reads the tree and stops after them |
| ParserProperties.WrapLay | src/Parser/Parser.cpp:310-316 | the same for a tree printed in parentheses |
| ParserProperties.OpKindTier | src/Parser/Parser.cpp:27-270 | an operator's token kind belongs to its own tier and to no other |
| ParserProperties.OperatorStopsTighterTiers | src/Parser/Parser.cpp:27-270 | an operator's token is not an operator of any tighter tier |
| ParserProperties.ParsePrefixUnparse | src/Parser/Parser.cpp:272-309 | parsePrefix reads a printed literal or unary tree back exactly |
| ParserProperties.ParseUnparse | src/Parser/Parser.cpp:27-321 | at any level up to the tree's own, the printed tree followed by a token that is no operator of that level or tighter is read back exactly, stopping at that token |
| ParserProperties.ParseTierUnparse | src/Parser/Parser.cpp:27-270 | tier L reads a printed tree of tier L or tighter and goes on looking for tier-L operators after it |
| ParserProperties.ParseBinaryUnparse | src/Parser/Parser.cpp:27-270 | a printed binary tree: tier L reads the left operand up to the operator, matches it, and the next tier reads the right operand |
| ParserProperties.ParseLeftOperand | src/Parser/Parser.cpp:27-270 | a left operand is read by tier L itself, or as a parenthesised group when it is looser |
| ParserProperties.ParseRightOperand | src/Parser/Parser.cpp:27-270 | a right operand is read by tier L + 1, or as a parenthesised group when it is of the same or a looser tier (left associativity) |
| ParserProperties.ParseParenthesised | src/Parser/Parser.cpp:310-316 | a parenthesised tree is read as one operand at every level |
| ParserProperties.PrefixGroupingUnparse | src/Parser/Parser.cpp:310-316 | parsePrefix on '(' reads a parenthesised tree with its ')' |
| ParserProperties.ParenIsNoOperator | src/Parser/Parser.cpp:27-270 | ')' is no binary operator of any tier |
| ParserProperties.EofIsNoOperator | src/Parser/Parser.cpp:27-270 | Eof is no binary operator of any tier |
| ParserProperties.RoundTrip | src/Parser/Parser.cpp:19-321 | with the corrected rule, parse() on a printed tree followed by Eof returns exactly that tree and stops at the Eof |
| ParserProperties.RoundTripAsWritten | src/Parser/Parser.cpp:19-321 | as written, parse() on a printed tree followed by Eof returns that tree up to its tokens and stops at the Eof |
| ParserProperties.UnparseInjective | src/Parser/Parser.cpp:19-321 | different trees print as different tokens |
| ParserExamples.LitUnparse | src/Parser/Parser.cpp:304-309 | the constant built from a literal prints as that literal alone |
| ParserExamples.MultBindsTighter | src/Parser/Parser.cpp:196-250 | `a + b * c` parses to `Add(a, Mult(b, c))` exactly with the corrected rule, and to the same shape, stopping at the same Eof, as written |
| ParserExamples.SubLeftAssociative | src/Parser/Parser.cpp:196-222 | `a - b - c` parses to `Sub(Sub(a, b), c)` exactly with the corrected rule, and to the same shape, stopping at the same Eof, as written |
| ParserExamples.PowLeftAssociative | src/Parser/Parser.cpp:252-270 | `a ** b ** c` parses to `Pow(Pow(a, b), c)` exactly with the corrected rule, and to the same shape, stopping at the same Eof, as written |
| ParserExamples.DoubleNegation | src/Parser/Parser.cpp:272-301 | `- - a` parses to `Negate(Negate(a))` exactly with the corrected rule, and to the same shape, stopping at the same Eof, as written |
| ParserExamples.PrefixBindsTighterThanPow | src/Parser/Parser.cpp:252-301 | `- a ** b` parses to `Pow(Negate(a), b)` exactly with the corrected rule, and to the same shape, stopping at the same Eof, as written |
| ParserExamples.UnexpectedTokenIsNull | src/Parser/Parser.cpp:317-320 | under either rule, a token no rule accepts gives null at every level, and is not consumed |
| ParserExamples.LiteralAlone | src/Parser/Parser.cpp:304-309 | under either rule, a literal followed by a token that is no operator of the level or tighter parses to its constant alone |
| ParserExamples.DanglingOperator | src/Parser/Parser.cpp:196-222 | under either rule, `a +` then Eof still builds the Add node, with a null right child, and stops at the Eof |
| ParserExamples.OrNodeToken | src/Parser/Parser.cpp:27-54 | `a \|\| b` then Eof parses to one Or node over the two constants, stopping at the Eof; the node carries `\|\|` under the corrected rule and `b` as written |
| ParserExamples.AsWrittenOrKeepsOperandToken | src/Parser/Parser.cpp:33-34 | as written, the Or node of `a \|\| b` carries the literal `b` instead of `\|\|`, so the tree is not faithful to its tokens |
| ParserExamples.MissingCloseParen | src/Parser/Parser.cpp:310-316 | under either rule, `( a` then Eof gives null, with the inner tokens consumed and the Eof current |
| ParserExamples.TrailingTokensLeft | src/Parser/Parser.cpp:19-21 | under either rule, parse() on `a )` returns the constant and leaves the ')' current |
| PrinterSpec.Tabs | src/AST/ASTPrettyPrinter.cpp:13-14 | `m_tabstr` has as many characters as the printer's depth |
| PrinterSpec.LeadingTabs | src/AST/ASTPrettyPrinter.cpp:13-14 | the count of leading tabs is at most the line's length |
| PrinterSpec.Lines | src/AST/ASTPrettyPrinter.cpp:16-98 | a tree prints as at least four lines, exactly four for a constant or Nil |
| PrinterSpec.SlotLines | src/AST/ASTPrettyPrinter.cpp:70-77 | a child slot prints as at least three lines, exactly three when the child is null |
| PrinterSpec.ChildLines | src/AST/ASTPrettyPrinter.cpp:71-76 | a child prints as at least one line, exactly one (`nullnode`) when it is null |
| Printer.OutStream.WriteLine | src/AST/ASTPrettyPrinter.cpp:17 | writing appends exactly that line to the stream |
| Printer.PrettyPrinter.constructor | src/AST/ASTPrettyPrinter.cpp:13-14 | the printer keeps the stream and the depth it was given, and its tab string is that many tabs |
| Printer.PrettyPrinter.Emit | src/AST/ASTPrettyPrinter.cpp:17 | appends the printer's tabs and the text as one line |
| Printer.PrettyPrinter.Visit | src/AST/ASTPrettyPrinter.cpp:16-98 | dispatches on the node's kind and appends exactly `Lines(e, depth)` |
| Printer.PrettyPrinter.VisitConstant | src/AST/ASTPrettyPrinter.cpp:16-56 | a constant appends its four lines: `Constant: {`, the type word, the value (`True`/`False` for a Bool), `}` |
| Printer.PrettyPrinter.VisitNil | src/AST/ASTPrettyPrinter.cpp:58-65 | Nil appends the four lines with `Type: Nil` and `Value: Nil` |
| Printer.PrettyPrinter.VisitBinary | src/AST/ASTPrettyPrinter.cpp:67-85 | appends the header, the operator's ordinal, then the Lhs slot before the Rhs slot, children through a printer one deeper |
| Printer.PrettyPrinter.VisitUnary | src/AST/ASTPrettyPrinter.cpp:87-98 | appends the header, the operator's ordinal and the Branch slot |
| Printer.PrettyPrinter.EmitHeader | src/AST/ASTPrettyPrinter.cpp:68-69 | appends the node's kind line and its `Type:` line |
| Printer.PrettyPrinter.VisitSlot | src/AST/ASTPrettyPrinter.cpp:70-77 | appends the heading, the child through the deeper printer or one `nullnode` line at this depth, and `}` |
| PrinterProperties.TabsThen | src/AST/ASTPrettyPrinter.cpp:13-14 | a line with d tabs in front has d more leading tabs |
| PrinterProperties.AllTabs | src/AST/ASTPrettyPrinter.cpp:13-14 | the tab string holds nothing but tabs |
| PrinterProperties.OwnLine | src/AST/ASTPrettyPrinter.cpp:17-20 | a line the printer writes itself starts with exactly its depth in tabs |
| PrinterProperties.LinesIndented | src/AST/ASTPrettyPrinter.cpp:16-98 | every line of a depth d printer starts with at least d tabs, the first and last with exactly d, and there are at least four |
| PrinterProperties.SlotIndented | src/AST/ASTPrettyPrinter.cpp:70-84 | a child slot's closing brace is at the parent's depth and nothing in it is shallower |
| PrinterProperties.LinesShift | src/AST/ASTPrettyPrinter.cpp:71 | a printer b levels deeper writes the same lines, each with b more tabs |
| PrinterProperties.SlotShift | src/AST/ASTPrettyPrinter.cpp:70-84 | the same for a child slot |
| PrinterProperties.BlockShift | src/AST/ASTPrettyPrinter.cpp:16-65 | the same for a constant's four lines |
| PrinterProperties.LineCount | src/AST/ASTPrettyPrinter.cpp:16-98 | a tree prints as four lines per node, two more per binary node and one per null child |
| PrinterProperties.SlotCount | src/AST/ASTPrettyPrinter.cpp:70-84 | a slot prints as two lines plus its child's count, or three with a null child |
| PrinterProperties.NodeLines | src/AST/ASTPrettyPrinter.cpp:67-98 | node by node, through `Ast.Children`: a node writes four lines of its own, two more if binary, one `nullnode` line per slot without a child, and then each child's full printout one level deeper |
| PrinterProperties.SlotLength | src/AST/ASTPrettyPrinter.cpp:70-77 | a slot writes its heading, its `}` and either one `nullnode` line or its child's printout one level deeper |
| PrinterProperties.TokensNotPrinted | src/AST/ASTPrettyPrinter.cpp:58-65 | trees that differ only in their tokens print the same; in particular Nil prints the same whatever its token |
| PrinterProperties.PrintDeterminesShape | src/AST/ASTPrettyPrinter.cpp:16-98 | when the stream writes the different doubles the two trees hold differently, equal printouts mean the same tree up to tokens |
| PrinterProperties.PrintDeterminesShapeWithoutDoubles | src/AST/ASTPrettyPrinter.cpp:16-98 | for trees without Float constants, equal printouts mean the same tree up to tokens, whatever the stream does with doubles |
| PrinterProperties.LinesPrefixFree | src/AST/ASTPrettyPrinter.cpp:16-98 | no printout is a proper prefix of another: reading one back stops exactly where it ends (the doubles the trees hold being written distinguishably) |
| PrinterProperties.FirstLines | src/AST/ASTPrettyPrinter.cpp:17-18 | a node's first line is its heading and its second its `Type:` line |
| PrinterProperties.IntTextInjective | src/AST/ASTPrettyPrinter.cpp:19 | distinct integers are written differently |
| PrinterProperties.TypeTextInjective | src/AST/ASTPrettyPrinter.cpp:69 | the same heading and type word mean the same kind of node and, for an operator, the same operator |
| PrinterProperties.ValueTextInjective | src/AST/ASTPrettyPrinter.cpp:16-56 | the same type word and value text mean the same constant value, when the stream writes the two doubles differently if they differ |
| PrinterProperties.NotNull | src/AST/ASTPrettyPrinter.cpp:72-76 | a printed child can never be mistaken for a `nullnode` line, which is one tab shallower |
| Value.TypeOrdinal | include/nitro/value.h:18-27 | the eight tags are numbered below 8 |
| Value.TypeOrdinalBijective | include/nitro/value.h:18-27 | NIL=0 .. FUNCTION=7 is a one-to-one numbering of exactly 0..7 |
| Value.NitroValueType | src/Runtime/Value/value.cpp:58-60 | the tag read back is the one whose `NitroValueIs*` predicate holds |
| Value.IsNil | include/nitro/value.h:54-57 | holds exactly for the NIL tag (0) |
| Value.IsChar | include/nitro/value.h:59-62 | holds exactly for the CHAR tag (1) |
| Value.IsBool | include/nitro/value.h:64-67 | holds exactly for the BOOL tag (2) |
| Value.IsInt | include/nitro/value.h:69-72 | holds exactly for the INT tag (3) |
| Value.IsFloat | include/nitro/value.h:74-77 | holds exactly for the FLOAT tag (4) |
| Value.IsArray | include/nitro/value.h:79-82 | holds exactly for the ARRAY tag (5) |
| Value.IsString | include/nitro/value.h:86-89 | holds exactly for the STRING tag (6) |
| Value.NitroValueNil | src/Runtime/Value/value.cpp:5-10 | the Nil value has the Nil tag and a null pointer payload |
| Value.NitroValueChar | src/Runtime/Value/value.cpp:12-17 | has the Char tag and holds the given char |
| Value.NitroValueBool | src/Runtime/Value/value.cpp:19-24 | has the Bool tag and holds the given bool |
| Value.NitroValueTrue | src/Runtime/Value/value.cpp:26-28 | is a Bool value |
| Value.NitroValueFalse | src/Runtime/Value/value.cpp:30-32 | is a Bool value |
| Value.NitroValueInt | src/Runtime/Value/value.cpp:34-39 | has the Int tag and holds the given integer |
| Value.NitroValueFloat | src/Runtime/Value/value.cpp:41-46 | has the Float tag and holds the given double |
| Value.NitroValueArray | src/Runtime/Value/value.cpp:48-51 | always aborts: the constructor is not implemented |
| Value.NitroValueString | src/Runtime/Value/value.cpp:53-56 | always aborts: the constructor is not implemented |
| Value.NitroValueAsChar | src/Runtime/Value/value.cpp:62-65 | returns a char exactly when the tag is CHAR, and aborts on every other tag whatever the union holds |
| Value.ExactlyOnePredicate | include/nitro/value.h:54-89 | exactly one `NitroValueIs*` predicate holds for each tag but FUNCTION, which has none |
| Value.ConstructorTags | src/Runtime/Value/value.cpp:58-60 | the tag accessor reads back the tag each constructor sets |
| Value.AsCharOfChar | src/Runtime/Value/value.cpp:62-65 | reading back a stored char gives it, and distinct chars give distinct values |
| Value.AsCharAbortsOffChar | src/Runtime/Value/value.cpp:62-65 | a value tagged INT whose union holds a char still aborts: only the tag is asserted |
| Value.TrueAndFalse | src/Runtime/Value/value.cpp:26-31 | True and False are `NitroValueBool(true)` and `NitroValueBool(false)`, they differ, and every Bool value is one of them |
| Value.IntInjective | src/Runtime/Value/value.cpp:34-39 | two Int values are equal exactly when their integers are |

## Left out

- `src/nitro.cpp` is not part of this model: argument checks, reading the file, dumping tokens and exit codes are I/O glue.
- The visitor machinery (`ASTVisitor.hpp`, `ASTPrettyPrinter.hpp`, each node's `visit`) is replaced by a `match` on the tree datatype. Dispatch happens once per node, as in the source.
- The node kinds that no shown code builds are not modelled: function definitions, conditionals, variables, statement sets and returns. Nil is kept because the printer handles it.
- The copy and move macros of `src/global/defs.hpp` are not modelled.
- Doubles are kept abstract (`Float64`, the literal's text):
  - `strtod` is not modelled;
  - how the stream formats a double is a parameter of the printer;
  - `NitroValueFloat` stores the abstract value.
- ParserSpec.LiteralValue: the double of a Float constant is taken to be the one its lexeme names. In the source, `strtod` gets a pointer into the whole source text, not the lexeme alone, so it reads on past the token. The scanner never lexes an exponent, so on `1.e5` it gives the FloatLiteral `1.` followed by the Identifier `e5`, while `strtod` converts `1.e5` to 100000.0; `2.5e3` likewise gives 2500.0. The model keeps only the lexeme and does not capture this. For integer literals the same read-past is harmless: the scanner's digit run is maximal and is not followed by '.', so `strtoll` stops where the token ends.
- Value.NitroValueAsChar: requires that a CHAR-tagged value hold its char in the union. Reading `v.value.c` when the union was last written through another member reinterprets that member's bytes; the payload is modelled as a tagged choice, so that read has no counterpart. Every other input, including a non-CHAR tag over a char slot, is covered and aborts.
- Parser.Parser.ParsePrimary: the `std::cerr` diagnostics on a missing ')' and on an unexpected token are not modelled, only the null result they come with.
- Numbers.StrToLL: `errno` on overflow is not modelled; the clamped value is.
- Lexer.Lexer.constructor: the header does not declare `m_indent_levels` or `m_line_begin`. The stack is taken to start as `[0]`, which the unguarded `back()` calls need. The flag is assumed to start true.
- The scanner's source is a `string` of Dafny characters. C `char` width and signedness, and `std::isalpha` outside the C locale, are not modelled.
- Parser.Parser.Advance: the scanner is modelled by the finite sequence its calls return, ending in Eof. Past that Eof the index stays put; `LexerProperties.EofRepeats` shows the scanner itself keeps returning Eof there.
- ParserProperties.ParseUnparse: stated for the corrected node-token rule only, where the tree read back is exactly the printed one; for the code as written it holds up to the tokens in the nodes, which `ParserSpec.RulesAgree` carries over (`ParserProperties.RoundTripAsWritten` does so for the round trip).
- ParserProperties.ParseTierUnparse: stated for the corrected node-token rule only, where the tree read back is exactly the printed one; for the code as written it holds up to the tokens in the nodes, which `ParserSpec.RulesAgree` carries over (`ParserProperties.RoundTripAsWritten` does so for the round trip).
- ParserProperties.ParseBinaryUnparse: stated for the corrected node-token rule only, where the tree read back is exactly the printed one; for the code as written it holds up to the tokens in the nodes, which `ParserSpec.RulesAgree` carries over (`ParserProperties.RoundTripAsWritten` does so for the round trip).
- ParserProperties.ParseLeftOperand: stated for the corrected node-token rule only, where the tree read back is exactly the printed one; for the code as written it holds up to the tokens in the nodes, which `ParserSpec.RulesAgree` carries over (`ParserProperties.RoundTripAsWritten` does so for the round trip).
- ParserProperties.ParseRightOperand: stated for the corrected node-token rule only, where the tree read back is exactly the printed one; for the code as written it holds up to the tokens in the nodes, which `ParserSpec.RulesAgree` carries over (`ParserProperties.RoundTripAsWritten` does so for the round trip).
- ParserProperties.ParseParenthesised: stated for the corrected node-token rule only, where the tree read back is exactly the printed one; for the code as written it holds up to the tokens in the nodes, which `ParserSpec.RulesAgree` carries over (`ParserProperties.RoundTripAsWritten` does so for the round trip).
- ParserProperties.PrefixGroupingUnparse: stated for the corrected node-token rule only, where the tree read back is exactly the printed one; for the code as written it holds up to the tokens in the nodes, which `ParserSpec.RulesAgree` carries over (`ParserProperties.RoundTripAsWritten` does so for the round trip).
- ParserProperties.ParsePrefixUnparse: stated for the corrected node-token rule only, where the tree read back is exactly the printed one; for the code as written it holds up to the tokens in the nodes, which `ParserSpec.RulesAgree` carries over (`ParserProperties.RoundTripAsWritten` does so for the round trip).
- ParserProperties.RoundTrip: stated for the corrected node-token rule only, where the tree read back is exactly the printed one; for the code as written it holds up to the tokens in the nodes, which `ParserSpec.RulesAgree` carries over (`ParserProperties.RoundTripAsWritten` does so for the round trip).
- ParserProperties.RoundTrip: covers only the trees the parser can build from complete input: no null child, no Nil, every node on a token of its kind. Partial trees are covered by the examples, not by a general lemma.
- Value.NitroValueArray and Value.NitroValueString return `Aborted` for every input. A precondition no caller can meet would make them uncallable, whereas the source lets every caller reach the failing assertion. Builds with `NDEBUG`, where they would return Nil, are not modelled.
- The value functions declared without bodies (`AsBool`, `AsInt`, `AsFloat`, `ArrayAt`, `StringGetChar`, `AsString`, `FunctionCall`, `IsArrayOf`) have no behaviour to model. The raw `void*` payload is an abstract pointer.
- Printer: a String or Char constant whose text contains a newline makes the real stream hold more lines than the printer wrote; the model's output is the list of lines written, so that splitting is not captured.
- Parser.Parser.Parse: the result is returned rather than stored in `m_ast`, which the shown code only sets to null in the constructor.

## Findings

| source | as written | input that shows it | evidently intended | confidence | as-written member | corrected member |
|---|---|---|---|---|---|---|
| src/Parser/Parser.cpp:33-34 | nodes are built with `m_previous` after the operand has been parsed, so a binary or unary node carries the operand's last token | the tokens of `a \|\| b` give an Or node carrying `b`; those of `-1` likewise give a negation node carrying `1` (src/Parser/Parser.cpp:275-277, `ParserSpec.AsWrittenNegationKeepsOperandToken`) | each node carries the operator token just matched | not executed | ParserExamples.AsWrittenOrKeepsOperandToken | ParserSpec.ParseFaithful |
