# Dockerfile lexer and parser, modelled in Dafny

This project models the core of the Dockerfile front end of `ducker`:
- the token categories and the keyword table (`token` package);
- the lexer that turns a Dockerfile into tokens (`lexer` package);
- the syntax tree (`ast` package);
- the recursive-descent parser for `#` comments, `FROM`, `ARG` and `COPY` (`parser` package).

The model follows the Go code, quirks included:
- Whitespace skipping discards every backslash, so a backslash that starts a token is dropped.
- Inside a word, a backslash before a space is kept, together with the space.
- A flag without `=` makes `parseArguments` give no arguments, and that flag becomes the `FROM` or `COPY` source.
- The token after `AS` is the alias, whatever its category.
- A quoted string without a closing quote makes the Go loop run forever. The model states this as a `Diverges` outcome.

Modules, one per concern:
- `Outcomes`: `Option` and `Halting` (`Done(value)` or `Diverges`).
- `Tokens`: categories, spellings and `LookupIdent`.
- `Lexing`: the lexer state and every lexer routine. Each routine is a pure function of the state, with lemmas that characterise it.
- `Scripts`: a way to describe an input as a sequence of pieces (gap, then word, mark, newline or quoted string). The main theorem is that the lexer reads any well-formed script as exactly the tokens its pieces name.
- `LexerReplay`: the Go lexer test, replayed through `Scripts`.
- `Ast`: the node types and their `TokenLiteral` methods.
- `Parsing`: the parser over a token stream. `LexerStream` connects that stream to the lexer. The module has both the intended program loop and the loop as written (see Findings).
- `ParserReplay`: the four Go parser tests, replayed on the model.

The Go parser calls the lexer on demand. The model reads the `i`-th token as the token of the `i`-th `NextToken` call on the initial lexer. That is the same thing, because the lexer is a function of its state.

## Model

| member | source | states |
|---|---|---|
| Tokens.LookupIdent | dockerfile/token/token.go:46-67 | The category is `EXPR` or a keyword, and a keyword only for its own exact spelling. |
| Tokens.KeywordRoundTrip | dockerfile/token/token.go:47-59 | Each of the eleven keywords is looked up as itself, so the table and the spellings are inverse. |
| Tokens.LookupIdentExpr | dockerfile/token/token.go:62-67 | A word is `EXPR` exactly when no keyword is spelled that way (both directions). |
| Tokens.SpellingInjective | dockerfile/token/token.go:18-44 | Distinct token types have distinct string values. |
| Tokens.LookupIsExact | dockerfile/token/token.go:62-67 | The lookup is case-sensitive and exact: `from`, `From`, `FROMX` and the empty word are `EXPR`. |
| Lexing.SkipWhitespace | dockerfile/lexer/lexer.go:115-130 | Skipping stops on a character that is neither a blank nor a backslash, never moves back, and does nothing at the end of input. |
| Lexing.SkipWhitespaceDiscards | dockerfile/lexer/lexer.go:115-130 | Only blanks, backslashes and a newline right after a backslash are discarded, and never a newline skipping starts on. |
| Lexing.SkipWhitespaceStopsAt | dockerfile/lexer/lexer.go:115-130 | Converse: when everything before `e` may be discarded and `e` may not, skipping stops exactly at `e`. |
| Lexing.SkipWhitespaceCountsLines | dockerfile/lexer/lexer.go:119-124 | The line counter grows by the number of newlines consumed. |
| Lexing.SkipWhitespaceLineStart | dockerfile/lexer/lexer.go:119-124 | With no line counted, no newline was consumed and the line start is unchanged. With a line counted, the line start is just after the last backslash-newline consumed, and no newline lies between it and where skipping stops. |
| Lexing.SkipWhitespaceNoLine | dockerfile/lexer/lexer.go:115-130 | Skipping a stretch without a newline changes only the offset. |
| Lexing.SkipWhitespaceOneLine | dockerfile/lexer/lexer.go:119-124 | Skipping across one backslash-newline counts one line and starts the line after that newline. |
| Lexing.ScanExpr | dockerfile/lexer/lexer.go:89-95 | The loop consumes a word (escaped spaces allowed) and stops where no word can continue; a valid first character consumes at least one character. |
| Lexing.ReadExpression | dockerfile/lexer/lexer.go:89-95 | The literal is the input text between the start and end offsets, is a word, and ends at a word boundary; line counters are untouched. |
| Lexing.NoBoundaryInsideWord | dockerfile/lexer/lexer.go:136-149 | No word boundary lies strictly inside a word. |
| Lexing.WordEndUnique | dockerfile/lexer/lexer.go:136-149 | A word starting at a given offset has exactly one possible end. |
| Lexing.ScanExprIsMaximal | dockerfile/lexer/lexer.go:89-95 | Any word from the current offset that ends at a boundary ends where the scan stops, so the scan finds the maximal word. |
| Lexing.ScanTo | dockerfile/lexer/lexer.go:100-102 | When the loop ends, it ends on the first occurrence of the delimiter at or after the offset. |
| Lexing.ScanToEnds | dockerfile/lexer/lexer.go:100-102 | The loop ends exactly when the delimiter occurs at or after the offset (both directions). |
| Lexing.ReadString | dockerfile/lexer/lexer.go:97-104 | The literal is the text strictly between the opening quote and the next identical quote, and holds no such quote. |
| Lexing.ReadStringDiverges | dockerfile/lexer/lexer.go:97-104 | Reading runs forever exactly when the delimiter never occurs again (both directions). |
| Lexing.LexQuoted | dockerfile/lexer/lexer.go:57-62 | A quoted token is a `STRING` whose text lies between the two quotes, and both quotes are consumed. |
| Lexing.LexWord | dockerfile/lexer/lexer.go:72-77 | A word token is the maximal word at the offset, classified by `LookupIdent`. |
| Lexing.NextToken | dockerfile/lexer/lexer.go:45-87 | Every call makes progress and never yields `ILLEGAL`; a non-EOF token stays within the input. |
| Lexing.NextTokenDiverges | dockerfile/lexer/lexer.go:57-62 | A call runs forever exactly when the token starts with a quote that is never closed. |
| Lexing.LexEnd | dockerfile/lexer/lexer.go:69-71 | On the error rune the token is `EOF` with empty text, and only that rune is consumed. |
| Lexing.EofForever | dockerfile/lexer/lexer.go:26-35 | Once the input is used up, every call returns `EOF` and stays past the end. |
| Lexing.LexPunctuation | dockerfile/lexer/lexer.go:50-68 | `#`, `[`, `]`, `,` and newline give one-character tokens; a newline counts a line and starts the next line after it. |
| Lexing.DispatchQuote | dockerfile/lexer/lexer.go:57-62 | Either quote character hands over to the quoted-string reader. |
| Lexing.DispatchWord | dockerfile/lexer/lexer.go:72-77 | Any other character hands over to the word reader. |
| Lexing.LexQuotedString | dockerfile/lexer/lexer.go:57-62 | For the whole call: the quoted text is verbatim, the quotes are consumed and newlines inside are not counted. |
| Lexing.LexExpression | dockerfile/lexer/lexer.go:72-77 | For the whole call: the token is the non-empty maximal word after the skipped whitespace, classified by the keyword table. |
| Lexing.TakeTokens | dockerfile/lexer/lexer_test.go:115-125 | The successive tokens of repeated `NextToken` calls; it gives exactly `n` of them. |
| Lexing.TokensAfterEnd | dockerfile/lexer/lexer.go:69-71 | Past the end of input, every further token is `EOF`. |
| Lexing.WordAt | dockerfile/lexer/lexer.go:72-77 | A word whose extent is known is read as one token, classified by the keyword table. |
| Lexing.WordTextAt | dockerfile/lexer/lexer.go:72-77 | The same, with the token's text given. |
| Lexing.PunctuationAt | dockerfile/lexer/lexer.go:50-68 | A one-character token at a known offset. |
| Lexing.NewlineAt | dockerfile/lexer/lexer.go:63-66 | A newline token at a known offset, with the line counted. |
| Lexing.QuotedAt | dockerfile/lexer/lexer.go:97-104 | A quoted string whose closing quote is at a known offset. |
| Lexing.EndAt | dockerfile/lexer/lexer.go:69-71 | The end-of-input token at a known offset. |
| Lexing.NextTokenSpelled | dockerfile/lexer/lexer.go:45-87 | Every token handed out is spelled as its category implies: keywords as themselves, `#` for comments, empty text for `EOF`. |
| Scripts.StepAt | dockerfile/lexer/lexer.go:45-87 | One well-formed piece placed in the input is read as exactly its token, and the lexer moves past it. |
| Scripts.ReadAll | dockerfile/lexer/lexer.go:45-87 | The text of any well-formed script is read as exactly the tokens the script names, in order. |
| Scripts.ReadAllToEnd | dockerfile/lexer/lexer.go:69-71 | The same, followed by any number of `EOF` tokens. |
| LexerReplay.LexerTest | dockerfile/lexer/lexer_test.go:12-126 | The test input is read as exactly the tokens the test lists, in order, with their categories and texts. |
| Ast.IdentifierLiteral | dockerfile/ast/ast.go:57-58 | An identifier's literal is its value. |
| Ast.ArgumentLiteral | dockerfile/ast/ast.go:66-67 | An argument's literal is the whole flag: `--`, then the name, `=` and the value. |
| Ast.StatementLiteral | dockerfile/ast/ast.go:34-87 | A well-formed statement's literal is its keyword, or `#` for a comment. |
| Ast.ProgramLiteral | dockerfile/ast/ast.go:26-32 | A program's literal is its first statement's keyword (directives do not count), and empty exactly when there is no statement. |
| Parsing.TokenAt | dockerfile/parser/parser.go:36-39 | The token of the `i`-th lexer call is well spelled, never `ILLEGAL`, and lies inside the input unless it is `EOF`. |
| Parsing.TokenAtShift | dockerfile/parser/parser.go:36-39 | Counting calls from one call later shifts the count by one. |
| Parsing.TakeTokensAt | dockerfile/parser/parser.go:36-39 | The tokens the parser draws one by one are those the lexer hands out in sequence. |
| Parsing.LexerStream | dockerfile/parser/parser.go:23-39 | The parser's stream is the lexer's tokens by call number, all `EOF` past the input length. |
| Parsing.New | dockerfile/parser/parser.go:23-34 | The parser starts on tokens 0 and 1 with no errors; it is defined exactly when those two calls finish. |
| Parsing.NextToken | dockerfile/parser/parser.go:36-39 | The lookahead becomes current and the next stream token becomes the lookahead; errors are untouched. |
| Parsing.PeekError | dockerfile/parser/parser.go:207-210 | Exactly one error is appended, naming the wanted and the found category, in the Go message text. |
| Parsing.ExpectPeek | dockerfile/parser/parser.go:185-193 | It answers true exactly when the lookahead has the wanted category and then advances by one; otherwise it records one error and stays put. |
| Parsing.ExpectPeekEnd | dockerfile/parser/parser.go:195-201 | An end of line or input after the statement is moved onto; anything else records one `EOL` error and stays. On success the errors are exactly the old ones plus that one error, if any. |
| Parsing.Cut | dockerfile/parser/parser.go:94 | A split is found exactly when the separator occurs; the front holds none and the parts rebuild the text. |
| Parsing.CutAtFirst | dockerfile/parser/parser.go:161 | Any split whose front holds no separator is the one `Cut` returns. |
| Parsing.ParseArgumentsFrom | dockerfile/parser/parser.go:89-105 | The loop stops at the first token that is not a well-formed flag followed by a word. It either collects one argument per flag passed, or drops them all on a flag without `=`, or drops them with one error on a flag without a word after it. |
| Parsing.ParseArguments | dockerfile/parser/parser.go:89-105 | The same from an empty slice; a current word that is no flag leaves everything unchanged. |
| Parsing.FlagsStopOnce | dockerfile/parser/parser.go:92-102 | There is only one place where flag reading can stop. |
| Parsing.ParseCommentStatement | dockerfile/parser/parser.go:75-87 | `#` followed by a word gives a comment holding that word. Its errors are exactly the old ones plus one `EOL` error when the token after the word ends neither the line nor the input. Without a word, nothing is produced and one error is recorded. |
| Parsing.CommentThenTwoWords | dockerfile/parser/parser.go:75-87 | A comment followed by two words keeps the first as its value and is still produced, with exactly one `EOL` error about the second. |
| Parsing.CommentOfTwoWords | dockerfile/parser/parser.go:41-58 | `# a b` parses to one directive holding `a`, with one error: the lexer reads the words after `#` as separate tokens. |
| Parsing.CallsNumbered | dockerfile/parser/parser.go:36-39 | Lexer calls chained one after another hand the parser their tokens in order, numbered from 0. |
| Parsing.ParseFromStatement | dockerfile/parser/parser.go:107-128 | Without a word after `FROM`, nothing is produced and one error is recorded; otherwise a well-formed `FROM` statement led by the current token. |
| Parsing.FromAlias | dockerfile/parser/parser.go:118-123 | With `AS` ahead, two tokens are taken and the second is the alias, whatever its category; otherwise nothing moves. |
| Parsing.FromSourceAndAlias | dockerfile/parser/parser.go:107-128 | The source is the word reached after the flags, the arguments are the flags read, and an alias is present exactly when `AS` follows the source. After the flags, the only error added is one `EOL` error when the token after the source or alias ends neither the line nor the input. |
| Parsing.MalformedFlagIsSource | dockerfile/parser/parser.go:96-97 | A flag without `=` right after `FROM` gives no arguments and becomes the source. |
| Parsing.ParseCopyStatement | dockerfile/parser/parser.go:130-150 | A missing first word gives no statement and one error; a produced statement is a well-formed `COPY`; a failure records one or two errors. |
| Parsing.CopySourceAndDest | dockerfile/parser/parser.go:137-145 | The source is the word reached after the flags, the destination is the word after it, and the arguments are the flags read. After the flags, the only error added is one `EOL` error when the token after the destination ends neither the line nor the input. |
| Parsing.CopyNeedsDest | dockerfile/parser/parser.go:141-143 | A source with no word after it gives no statement and exactly the one error about the destination. |
| Parsing.ParseArgStatement | dockerfile/parser/parser.go:152-175 | The name and value come from the first `=` of the word. Without `=`, the value is the next word when there is one and absent otherwise. On success the errors are exactly the old ones plus one `EOL` error when the token after the last word taken ends neither the line nor the input. |
| Parsing.ParseStatement | dockerfile/parser/parser.go:60-73 | A non-statement token gives a nil interface with no movement and no error. Otherwise the box has the head's statement type, and its pointer is nil only when an error was recorded. |
| Parsing.ParseProgramFrom | dockerfile/parser/parser.go:41-58 | The intended loop ends on `EOF`, only ever appends, and keeps directives as comments and statements well-formed. |
| Parsing.ParseProgram | dockerfile/parser/parser.go:41-58 | The program built from an empty one is well formed and the parser ends on `EOF`. |
| Parsing.Parse | dockerfile/parser/parser_test.go:173-184 | Lexing and parsing a whole input gives a well-formed program. |
| Parsing.SentinelEndsProgram | dockerfile/parser/parser.go:41-58 | Where a statement would start, a literal U+FFFD reads as end of input: U+FFFD followed by `x` parses to the empty program with no error. |
| Parsing.SentinelEndsStatement | dockerfile/parser/parser.go:195-201 | Right after a statement's last word, a literal U+FFFD ends that statement like an end of line and parsing goes on: `# a`, U+FFFD, `# b` gives the two directives `a` and `b` with no error. |
| Parsing.CommentThenEnd | dockerfile/parser/parser.go:75-87 | A comment whose word is followed by an end of line or of input is built with no error, and the parser moves onto that end token. |
| Parsing.SentinelLookaheadDiverges | dockerfile/parser/parser.go:23-34 | The token after a literal U+FFFD is still drawn as the lookahead, so an unterminated quote after it never returns. |
| Parsing.ProgramIsSplit | dockerfile/parser/parser.go:45-55 | The program is the run of statements that parsed, in order, split at the first statement that is not a comment. |
| Parsing.DirectivesLeadProgram | dockerfile/parser/parser.go:45-55 | Directives followed by statements are every parsed statement, in input order, and the directives are exactly the leading comments. |
| Parsing.ParseProgramAsWrittenFrom | dockerfile/parser/parser.go:41-58 | The loop as written only ever appends entries in order and keeps its directives exactly the leading comment-typed entries. |
| Parsing.ParseAsWritten | dockerfile/parser/parser.go:41-58 | For a whole input, the entries as written are every non-nil result of the statement parser, in input order, failed statements included; the errors are those met on the way; the directives are exactly the leading comment-typed entries. |
| Parsing.AsWrittenResults | dockerfile/parser/parser.go:45-55 | Collecting the statement parser's results only appends to what was collected before. |
| Parsing.AsWrittenCollects | dockerfile/parser/parser.go:45-55 | The loop as written finishes exactly when collecting the results does. Its entries are the results collected after the entries it started with, and it stops on the same parser. |
| Parsing.AsWrittenResultsShift | dockerfile/parser/parser.go:45-55 | Results collected after some entries are those entries followed by the results collected from nothing. |
| Parsing.AsWrittenAppends | dockerfile/parser/parser.go:45-55 | From any program, the loop as written appends exactly the collected results to its entries. |
| Parsing.SameSteps | dockerfile/parser/parser.go:45-55 | Both loops finish or diverge together and stop on the same parser, with the same errors. |
| Parsing.AsWrittenAgrees | dockerfile/parser/parser.go:45-55 | When no error is recorded, the loop as written builds exactly the intended program. |
| Parsing.ParseAsWrittenAgrees | dockerfile/parser/parser.go:41-58 | For a whole input, the two loops agree on termination and errors, and on the program when there is no error. |
| Parsing.KeepAsWrittenFacts | dockerfile/parser/parser.go:47-52 | Keeping a result as written appends it to the entries and keeps directives classified. |
| Parsing.FailedStatementKept | dockerfile/parser/parser.go:46-53 | As written, `FROM` with no word after it leaves a nil entry as the first statement, beside its error. |
| Parsing.FailedStatementDropped | dockerfile/parser/parser.go:46-53 | In the intended loop, the same line adds nothing to the program and records one error. |
| ParserReplay.DockerfileTest | dockerfile/parser/parser_test.go:12-27 | The input parses with no error into two directives and four statements, the expected program, in both loops. |
| ParserReplay.ArgsTest | dockerfile/parser/parser_test.go:29-73 | Three `ARG` statements with the names and values the test lists, with no error, in both loops. |
| ParserReplay.FromsTest | dockerfile/parser/parser_test.go:75-126 | Three `FROM` statements with the sources, aliases and flags the test lists, with no error, in both loops. |
| ParserReplay.CopiesTest | dockerfile/parser/parser_test.go:128-171 | Two `COPY` statements with the sources, destinations and flags the test lists, with no error, in both loops. |

## Left out

- Lexing.NextToken: tokens carry no position. `Position` (token.go:12-15) and `userPosition` (lexer.go:74, 83, 132-134) are not modelled. The line counter and line start are kept, so the positions could be added.
- Lexing.SkipWhitespaceLineStart: the line start is an offset in characters. The Go code (lexer.go:66, 123) counts bytes, which differ once a multi-byte character precedes it. No modelled output depends on it.
- Lexing.RuneAt: the input is a sequence of Unicode characters. Invalid UTF-8, which `DecodeRuneInString` (lexer.go:31, 41) decodes to the error rune and the lexer then reads as end of input, cannot be written in a Dafny `string`.
- Lexing.LexEnd: as in the Go code, a literal U+FFFD in the input reads as an `EOF` token, and the lexer reads on after it (lexer.go:85). The program loop stops on it only where a statement would start (`Parsing.SentinelEndsProgram`). Right after a statement's last word, it ends that statement like an end of line, and parsing continues after it (`Parsing.SentinelEndsStatement`). The parser draws the token after it as its lookahead (parser.go:30-31, 54), so an unterminated quote there never returns (`Parsing.SentinelLookaheadDiverges`).
- Lexing.ReadString: the Go loop on an unterminated quote (lexer.go:100-102) never returns. The model states this as the `Diverges` outcome, propagated through `NextToken`, `New`, `ParseProgram` and `Parse`.
- Parsing.PeekError: errors are kept as (wanted, found) category pairs. `Message` gives the Go text of each, and the `Errors` accessor (parser.go:203-205) is the `errors` field.
- Ast.ProgramLiteral: with the code as written, a nil entry can be the first statement, and Go's `TokenLiteral` then panics on the nil pointer. The model's `Program` holds only statements that parsed, so that case cannot be expressed. `Parsing.ParseProgramAsWrittenFrom` models the code as written, which keeps such entries, so the case can be reached there.
- Parsing.ParseArguments: a nil argument slice and an empty one are both the empty sequence. The Go tests compare them with `ElementsMatch`, which does not tell them apart. The replays prove the exact order of the arguments.
- `readFlag` (lexer.go:106-113) is never called and is not modelled. Neither is `curTokenIs` (parser.go:177-179), which is never called. `peekTokenIs` (parser.go:181-183) and `strPtr` (parser.go:212-214) are inlined.
- The REPL (cmd/repl/main.go) is terminal I/O and is not modelled.
- LexerReplay.LexerTest: the test input is written as a script of pieces, and its text is `Input` of that script rather than one string literal. Quoted bodies longer than forty characters are written as two halves of the same text.

## Findings

| source | as written | input that shows it | evidently intended | confidence | as-written member | corrected member |
|---|---|---|---|---|---|---|
| dockerfile/parser/parser.go:46-53 | A failed statement parser returns a nil `*ast.XStatement`. Wrapped in the `ast.Statement` interface it is not `nil`, so `stmt != nil` holds and a nil entry is appended; a nil `*CommentStatement` even passes the type assertion and becomes a directive. | `"FROM\n# a\n"`: the statements are `[nil, #a]`, with one error. | A statement that failed to parse is dropped: the statements are `[]` and `# a` becomes a directive. | not executed | Parsing.FailedStatementKept | Parsing.FailedStatementDropped |
