/** The Go parser tests (dockerfile/parser/parser_test.go) replayed on the model:
    each test input is written as a script of pieces, its tokens are read by the
    lexer, and the parser, stepped statement by statement, builds exactly the
    program the test inspects and records no error. */
module ParserReplay {
  import opened Outcomes
  import opened Tokens
  import opened Ast
  import Lexing
  import opened Scripts
  import opened Parsing
  import LexerReplay

  /** One round of the program loop, from a statement parsed at `p` to `q` and
      the move to the next token. */
  lemma LoopStep(p: Parser, prog: Program, b: Option<Boxed>, q: Parser, r: Parser, kept: Program)
    requires Parsing.Valid(p) && p.cur.kind != Eof
    requires ParseStatement(p) == Done((b, q)) && NextToken(q) == Done(r) && Keep(prog, b) == kept
    ensures Parsing.Valid(r) && ParseProgramFrom(p, prog) == ParseProgramFrom(r, kept)
  {
  }

  /** `parseArguments` on a single flag, split at its first `=` and followed by a
      word that is not a flag: one argument, and the reading stops at that word. */
  lemma OneFlag(p: Parser, name: string, value: string, q: Parser)
    requires Parsing.Valid(p) && IsFlag(p.cur.literal) && Cut(p.cur.literal[2..], '=') == (name, value, true)
    requires p.peek.kind == Expr && NextToken(p) == Done(q) && !IsFlag(q.cur.literal)
    ensures ParseArguments(p) == Done(([Argument(p.cur, name, value)], q))
  {
    assert ExpectPeek(p, Expr) == Done((true, q));
    var arg := Argument(p.cur, name, value);
    assert ParseArgumentsFrom(q, [arg]) == Done(([arg], q));
    assert [] + [arg] == [arg];
    assert ParseArgumentsFrom(p, []) == Done(([arg], q));
  }

  /** `parseStatement` on `#` is `parseCommentStatement`. */
  lemma CommentStep(p: Parser, s: Statement, q: Parser)
    requires Parsing.Valid(p) && p.cur.kind == Comment
    requires ParseCommentStatement(p) == Done((Some(s), q))
    ensures ParseStatement(p) == Done((Some(Boxed(Comment, Some(s))), q))
  {
  }

  /** `parseStatement` on `FROM` is `parseFromStatement`. */
  lemma FromStep(p: Parser, s: Statement, q: Parser)
    requires Parsing.Valid(p) && p.cur.kind == From
    requires ParseFromStatement(p) == Done((Some(s), q))
    ensures ParseStatement(p) == Done((Some(Boxed(From, Some(s))), q))
  {
  }

  /** `parseStatement` on `ARG` is `parseArgStatement`. */
  lemma ArgStep(p: Parser, s: Statement, q: Parser)
    requires Parsing.Valid(p) && p.cur.kind == Arg
    requires ParseArgStatement(p) == Done((Some(s), q))
    ensures ParseStatement(p) == Done((Some(Boxed(Arg, Some(s))), q))
  {
  }

  /** `parseStatement` on `COPY` is `parseCopyStatement`. */
  lemma CopyStep(p: Parser, s: Statement, q: Parser)
    requires Parsing.Valid(p) && p.cur.kind == Copy
    requires ParseCopyStatement(p) == Done((Some(s), q))
    ensures ParseStatement(p) == Done((Some(Boxed(Copy, Some(s))), q))
  {
  }

  // ---------------------------------------------------------------------------
  // The Go test `TestDockerfile` (dockerfile/parser/parser_test.go:12-27)
  // ---------------------------------------------------------------------------

  /** Line 1 of the input of TestDockerfile. */
  const DockerfileLine0: seq<Piece> := [Mark(Plain(""), '#'), Word(Plain(" "), "syntax=docker/dockerfile:1"), Newline(Plain(""))]
  const DockerfileTokens0: seq<Token> := [Token(Comment, "#"), Token(Expr, "syntax=docker/dockerfile:1"), Token(Eol, "\n")]

  /** Line 2 of the input of TestDockerfile. */
  const DockerfileLine1: seq<Piece> := [Mark(Plain(""), '#'), Word(Plain(" "), "check=error=true"), Newline(Plain(""))]
  const DockerfileTokens1: seq<Token> := [Token(Comment, "#"), Token(Expr, "check=error=true"), Token(Eol, "\n")]

  /** Line 3 of the input of TestDockerfile. */
  const DockerfileLine2: seq<Piece> := [Newline(Plain(""))]
  const DockerfileTokens2: seq<Token> := [Token(Eol, "\n")]

  /** Line 4 of the input of TestDockerfile. */
  const DockerfileLine3: seq<Piece> := [Word(Plain(""), "ARG"), Word(Plain(" "), "XX_VERSION=1.2.1"), Newline(Plain(""))]
  const DockerfileTokens3: seq<Token> := [Token(Arg, "ARG"), Token(Expr, "XX_VERSION=1.2.1"), Token(Eol, "\n")]

  /** Line 5 of the input of TestDockerfile. */
  const DockerfileLine4: seq<Piece> := [Newline(Plain(""))]
  const DockerfileTokens4: seq<Token> := [Token(Eol, "\n")]

  /** Line 6 of the input of TestDockerfile. */
  const DockerfileLine5 := DockerfileLine5a + DockerfileLine5b
  const DockerfileTokens5 := DockerfileTokens5a + DockerfileTokens5b
  const DockerfileLine5a: seq<Piece> := [Word(Plain(""), "FROM"), Word(Plain(" "), "--platform=$BUILDPLATFORM"), Word(Plain(" "), "tonistiigi/xx:${XX_VERSION}")]
  const DockerfileTokens5a: seq<Token> := [Token(From, "FROM"), Token(Expr, "--platform=$BUILDPLATFORM"), Token(Expr, "tonistiigi/xx:${XX_VERSION}")]
  const DockerfileLine5b: seq<Piece> := [Word(Plain(" "), "AS"), Word(Plain(" "), "xx"), Newline(Plain(""))]
  const DockerfileTokens5b: seq<Token> := [Token(As, "AS"), Token(Expr, "xx"), Token(Eol, "\n")]

  /** Line 7 of the input of TestDockerfile. */
  const DockerfileLine6: seq<Piece> := [Newline(Plain(""))]
  const DockerfileTokens6: seq<Token> := [Token(Eol, "\n")]

  /** Line 8 of the input of TestDockerfile. */
  const DockerfileLine7 := DockerfileLine7a + DockerfileLine7b
  const DockerfileTokens7 := DockerfileTokens7a + DockerfileTokens7b
  const DockerfileLine7a: seq<Piece> := [Word(Plain(""), "FROM"), Word(Plain(" "), "--platform=$BUILDPLATFORM"), Word(Plain(" "), "golang:1.22.5-alpine3.20")]
  const DockerfileTokens7a: seq<Token> := [Token(From, "FROM"), Token(Expr, "--platform=$BUILDPLATFORM"), Token(Expr, "golang:1.22.5-alpine3.20")]
  const DockerfileLine7b: seq<Piece> := [Word(Plain(" "), "AS"), Word(Plain(" "), "build-base"), Newline(Plain(""))]
  const DockerfileTokens7b: seq<Token> := [Token(As, "AS"), Token(Expr, "build-base"), Token(Eol, "\n")]

  /** Line 9 of the input of TestDockerfile. */
  const DockerfileLine8 := DockerfileLine8a + DockerfileLine8b
  const DockerfileTokens8 := DockerfileTokens8a + DockerfileTokens8b
  const DockerfileLine8a: seq<Piece> := [Word(Plain(""), "COPY"), Word(Plain(" "), "--from=xx"), Word(Plain(" "), "/")]
  const DockerfileTokens8a: seq<Token> := [Token(Copy, "COPY"), Token(Expr, "--from=xx"), Token(Expr, "/")]
  const DockerfileLine8b: seq<Piece> := [Word(Plain(" "), "/"), Newline(Plain(""))]
  const DockerfileTokens8b: seq<Token> := [Token(Expr, "/"), Token(Eol, "\n")]

  /** The input of TestDockerfile, line by line, and its tokens. */
  const DockerfileLines: seq<seq<Piece>> := [DockerfileLine0, DockerfileLine1, DockerfileLine2, DockerfileLine3, DockerfileLine4, DockerfileLine5, DockerfileLine6, DockerfileLine7, DockerfileLine8]
  const DockerfileTokenLines: seq<seq<Token>> := [DockerfileTokens0, DockerfileTokens1, DockerfileTokens2, DockerfileTokens3, DockerfileTokens4, DockerfileTokens5, DockerfileTokens6, DockerfileTokens7, DockerfileTokens8]
  const DockerfileInput := Input(Lines(DockerfileLines))

  /** Every token the parser draws from the input of TestDockerfile, the end-of-input
      tokens after it included. */
  const DockerfileStream: seq<Token> := [Token(Comment, "#"), Token(Expr, "syntax=docker/dockerfile:1"), Token(Eol, "\n"), Token(Comment, "#"), Token(Expr, "check=error=true"), Token(Eol, "\n"), Token(Eol, "\n"), Token(Arg, "ARG"), Token(Expr, "XX_VERSION=1.2.1"), Token(Eol, "\n"), Token(Eol, "\n"), Token(From, "FROM"), Token(Expr, "--platform=$BUILDPLATFORM"), Token(Expr, "tonistiigi/xx:${XX_VERSION}"), Token(As, "AS"), Token(Expr, "xx"), Token(Eol, "\n"), Token(Eol, "\n"), Token(From, "FROM"), Token(Expr, "--platform=$BUILDPLATFORM"), Token(Expr, "golang:1.22.5-alpine3.20"), Token(As, "AS"), Token(Expr, "build-base"), Token(Eol, "\n"), Token(Copy, "COPY"), Token(Expr, "--from=xx"), Token(Expr, "/"), Token(Expr, "/"), Token(Eol, "\n"), Token(Eof, ""), Token(Eof, "")]

  lemma ReadDockerfileLine0()
    ensures ValidLine(DockerfileLine0, DockerfileTokens0)
  {
    LexerReplay.Piece2();
  }

  lemma ReadDockerfileLine1()
    ensures ValidLine(DockerfileLine1, DockerfileTokens1)
  {
    LexerReplay.Piece5();
  }

  lemma ReadDockerfileLine2()
    ensures ValidLine(DockerfileLine2, DockerfileTokens2)
  {
  }

  /** A piece of the parser test inputs that reads as its token. */
  lemma Piece1()
    ensures ValidPiece(Word(Plain(""), "ARG")) && TokenOf(Word(Plain(""), "ARG")) == Token(Arg, "ARG")
  {
    PrintableWord(Plain(""), "ARG");
  }

  /** A piece of the parser test inputs that reads as its token. */
  lemma Piece2()
    ensures ValidPiece(Word(Plain(" "), "XX_VERSION=1.2.1")) && TokenOf(Word(Plain(" "), "XX_VERSION=1.2.1")) == Token(Expr, "XX_VERSION=1.2.1") && EndsWord(Word(Plain(" "), "XX_VERSION=1.2.1"))
  {
    PrintableWord(Plain(" "), "XX_VERSION=1.2.1");
  }

  lemma ReadDockerfileLine3()
    ensures ValidLine(DockerfileLine3, DockerfileTokens3)
  {
    Piece1();
    Piece2();
  }

  lemma ReadDockerfileLine4()
    ensures ValidLine(DockerfileLine4, DockerfileTokens4)
  {
  }

  lemma ReadDockerfileLine5a()
    ensures ValidRun(DockerfileLine5a, DockerfileTokens5a)
  {
    LexerReplay.Piece8();
    LexerReplay.Piece9();
    LexerReplay.Piece10();
  }

  lemma ReadDockerfileLine5b()
    ensures ValidRun(DockerfileLine5b, DockerfileTokens5b)
  {
    LexerReplay.Piece11();
    LexerReplay.Piece12();
  }

  lemma ReadDockerfileLine5()
    ensures ValidLine(DockerfileLine5, DockerfileTokens5)
  {
    ReadDockerfileLine5a();
    ReadDockerfileLine5b();
    RunAppend(DockerfileLine5a, DockerfileTokens5a, DockerfileLine5b, DockerfileTokens5b);
  }

  lemma ReadDockerfileLine6()
    ensures ValidLine(DockerfileLine6, DockerfileTokens6)
  {
  }

  /** A piece of the parser test inputs that reads as its token. */
  lemma Piece3()
    ensures ValidPiece(Word(Plain(" "), "golang:1.22.5-alpine3.20")) && TokenOf(Word(Plain(" "), "golang:1.22.5-alpine3.20")) == Token(Expr, "golang:1.22.5-alpine3.20") && EndsWord(Word(Plain(" "), "golang:1.22.5-alpine3.20"))
  {
    PrintableWord(Plain(" "), "golang:1.22.5-alpine3.20");
  }

  /** A piece of the parser test inputs that reads as its token. */
  lemma Piece4()
    ensures ValidPiece(Word(Plain(" "), "build-base")) && TokenOf(Word(Plain(" "), "build-base")) == Token(Expr, "build-base") && EndsWord(Word(Plain(" "), "build-base"))
  {
    PrintableWord(Plain(" "), "build-base");
  }

  lemma ReadDockerfileLine7a()
    ensures ValidRun(DockerfileLine7a, DockerfileTokens7a)
  {
    LexerReplay.Piece8();
    LexerReplay.Piece9();
    Piece3();
  }

  lemma ReadDockerfileLine7b()
    ensures ValidRun(DockerfileLine7b, DockerfileTokens7b)
  {
    LexerReplay.Piece11();
    Piece4();
  }

  lemma ReadDockerfileLine7()
    ensures ValidLine(DockerfileLine7, DockerfileTokens7)
  {
    ReadDockerfileLine7a();
    ReadDockerfileLine7b();
    RunAppend(DockerfileLine7a, DockerfileTokens7a, DockerfileLine7b, DockerfileTokens7b);
  }

  lemma ReadDockerfileLine8a()
    ensures ValidRun(DockerfileLine8a, DockerfileTokens8a)
  {
    LexerReplay.Piece22();
    LexerReplay.Piece23();
    LexerReplay.Piece24();
  }

  lemma ReadDockerfileLine8b()
    ensures ValidRun(DockerfileLine8b, DockerfileTokens8b)
  {
    LexerReplay.Piece24();
  }

  lemma ReadDockerfileLine8()
    ensures ValidLine(DockerfileLine8, DockerfileTokens8)
  {
    ReadDockerfileLine8a();
    ReadDockerfileLine8b();
    RunAppend(DockerfileLine8a, DockerfileTokens8a, DockerfileLine8b, DockerfileTokens8b);
  }

  /** The tokens of the lines of TestDockerfile, one after another, then the end of input. */
  lemma DockerfileConcat()
    ensures Concat(DockerfileTokenLines) + Eofs(2) == DockerfileStream
  {
    assert Concat(DockerfileTokenLines) == DockerfileTokens0 + (DockerfileTokens1 + (DockerfileTokens2 + (DockerfileTokens3 + (DockerfileTokens4 + (DockerfileTokens5 + (DockerfileTokens6 + (DockerfileTokens7 + (DockerfileTokens8 + ([]))))))))) by {
      assert DockerfileTokenLines[9..] == [];
      ConcatStep(DockerfileTokenLines, 8);
      ConcatStep(DockerfileTokenLines, 7);
      ConcatStep(DockerfileTokenLines, 6);
      ConcatStep(DockerfileTokenLines, 5);
      ConcatStep(DockerfileTokenLines, 4);
      ConcatStep(DockerfileTokenLines, 3);
      ConcatStep(DockerfileTokenLines, 2);
      ConcatStep(DockerfileTokenLines, 1);
      ConcatStep(DockerfileTokenLines, 0);
      assert DockerfileTokenLines[0..] == DockerfileTokenLines;
    }
    assert Eofs(2) == [Token(Eof, ""), Token(Eof, "")] by {
      assert Eofs(1) == [Token(Eof, "")];
    }
  }

  /** The lexer reads the input of TestDockerfile as exactly these tokens. */
  lemma DockerfileRead()
    ensures Lexing.TakeTokens(Lexing.New(DockerfileInput), |DockerfileStream|) == Done(DockerfileStream)
  {
    ReadDockerfileLine0();
    ReadDockerfileLine1();
    ReadDockerfileLine2();
    ReadDockerfileLine3();
    ReadDockerfileLine4();
    ReadDockerfileLine5();
    ReadDockerfileLine6();
    ReadDockerfileLine7();
    ReadDockerfileLine8();
    LinesFacts(DockerfileLines, DockerfileTokenLines);
    DockerfileConcat();
    ReadAllToEnd(Lines(DockerfileLines), 2, |DockerfileStream|, DockerfileStream);
  }

  /** The lexer reads the input of TestDockerfile as these tokens, then the end of input. */
  lemma DockerfileLexed()
    ensures var s := LexerStream(Lexing.New(DockerfileInput));
      && s.tokens(0) == Done(Token(Comment, "#"))
      && s.tokens(1) == Done(Token(Expr, "syntax=docker/dockerfile:1"))
      && s.tokens(2) == Done(Token(Eol, "\n"))
      && s.tokens(3) == Done(Token(Comment, "#"))
      && s.tokens(4) == Done(Token(Expr, "check=error=true"))
      && s.tokens(5) == Done(Token(Eol, "\n"))
      && s.tokens(6) == Done(Token(Eol, "\n"))
      && s.tokens(7) == Done(Token(Arg, "ARG"))
      && s.tokens(8) == Done(Token(Expr, "XX_VERSION=1.2.1"))
      && s.tokens(9) == Done(Token(Eol, "\n"))
      && s.tokens(10) == Done(Token(Eol, "\n"))
      && s.tokens(11) == Done(Token(From, "FROM"))
      && s.tokens(12) == Done(Token(Expr, "--platform=$BUILDPLATFORM"))
      && s.tokens(13) == Done(Token(Expr, "tonistiigi/xx:${XX_VERSION}"))
      && s.tokens(14) == Done(Token(As, "AS"))
      && s.tokens(15) == Done(Token(Expr, "xx"))
      && s.tokens(16) == Done(Token(Eol, "\n"))
      && s.tokens(17) == Done(Token(Eol, "\n"))
      && s.tokens(18) == Done(Token(From, "FROM"))
      && s.tokens(19) == Done(Token(Expr, "--platform=$BUILDPLATFORM"))
      && s.tokens(20) == Done(Token(Expr, "golang:1.22.5-alpine3.20"))
      && s.tokens(21) == Done(Token(As, "AS"))
      && s.tokens(22) == Done(Token(Expr, "build-base"))
      && s.tokens(23) == Done(Token(Eol, "\n"))
      && s.tokens(24) == Done(Token(Copy, "COPY"))
      && s.tokens(25) == Done(Token(Expr, "--from=xx"))
      && s.tokens(26) == Done(Token(Expr, "/"))
      && s.tokens(27) == Done(Token(Expr, "/"))
      && s.tokens(28) == Done(Token(Eol, "\n"))
      && s.tokens(29) == Done(Token(Eof, ""))
      && s.tokens(30) == Done(Token(Eof, ""))
  {
    DockerfileRead();
    TakeTokensAt(Lexing.New(DockerfileInput), |DockerfileStream|, DockerfileStream, 0);
    TakeTokensAt(Lexing.New(DockerfileInput), |DockerfileStream|, DockerfileStream, 1);
    TakeTokensAt(Lexing.New(DockerfileInput), |DockerfileStream|, DockerfileStream, 2);
    TakeTokensAt(Lexing.New(DockerfileInput), |DockerfileStream|, DockerfileStream, 3);
    TakeTokensAt(Lexing.New(DockerfileInput), |DockerfileStream|, DockerfileStream, 4);
    TakeTokensAt(Lexing.New(DockerfileInput), |DockerfileStream|, DockerfileStream, 5);
    TakeTokensAt(Lexing.New(DockerfileInput), |DockerfileStream|, DockerfileStream, 6);
    TakeTokensAt(Lexing.New(DockerfileInput), |DockerfileStream|, DockerfileStream, 7);
    TakeTokensAt(Lexing.New(DockerfileInput), |DockerfileStream|, DockerfileStream, 8);
    TakeTokensAt(Lexing.New(DockerfileInput), |DockerfileStream|, DockerfileStream, 9);
    TakeTokensAt(Lexing.New(DockerfileInput), |DockerfileStream|, DockerfileStream, 10);
    TakeTokensAt(Lexing.New(DockerfileInput), |DockerfileStream|, DockerfileStream, 11);
    TakeTokensAt(Lexing.New(DockerfileInput), |DockerfileStream|, DockerfileStream, 12);
    TakeTokensAt(Lexing.New(DockerfileInput), |DockerfileStream|, DockerfileStream, 13);
    TakeTokensAt(Lexing.New(DockerfileInput), |DockerfileStream|, DockerfileStream, 14);
    TakeTokensAt(Lexing.New(DockerfileInput), |DockerfileStream|, DockerfileStream, 15);
    TakeTokensAt(Lexing.New(DockerfileInput), |DockerfileStream|, DockerfileStream, 16);
    TakeTokensAt(Lexing.New(DockerfileInput), |DockerfileStream|, DockerfileStream, 17);
    TakeTokensAt(Lexing.New(DockerfileInput), |DockerfileStream|, DockerfileStream, 18);
    TakeTokensAt(Lexing.New(DockerfileInput), |DockerfileStream|, DockerfileStream, 19);
    TakeTokensAt(Lexing.New(DockerfileInput), |DockerfileStream|, DockerfileStream, 20);
    TakeTokensAt(Lexing.New(DockerfileInput), |DockerfileStream|, DockerfileStream, 21);
    TakeTokensAt(Lexing.New(DockerfileInput), |DockerfileStream|, DockerfileStream, 22);
    TakeTokensAt(Lexing.New(DockerfileInput), |DockerfileStream|, DockerfileStream, 23);
    TakeTokensAt(Lexing.New(DockerfileInput), |DockerfileStream|, DockerfileStream, 24);
    TakeTokensAt(Lexing.New(DockerfileInput), |DockerfileStream|, DockerfileStream, 25);
    TakeTokensAt(Lexing.New(DockerfileInput), |DockerfileStream|, DockerfileStream, 26);
    TakeTokensAt(Lexing.New(DockerfileInput), |DockerfileStream|, DockerfileStream, 27);
    TakeTokensAt(Lexing.New(DockerfileInput), |DockerfileStream|, DockerfileStream, 28);
    TakeTokensAt(Lexing.New(DockerfileInput), |DockerfileStream|, DockerfileStream, 29);
    TakeTokensAt(Lexing.New(DockerfileInput), |DockerfileStream|, DockerfileStream, 30);
  }

  /** The statements of the input of TestDockerfile, in input order. */
  const DockerfileStatement0 := CommentStatement(Token(Comment, "#"), Ident(Token(Expr, "syntax=docker/dockerfile:1")))
  const DockerfileStatement1 := CommentStatement(Token(Comment, "#"), Ident(Token(Expr, "check=error=true")))
  const DockerfileStatement2 := ArgStatement(Token(Arg, "ARG"), Ident(Token(Expr, "XX_VERSION=1.2.1")), "XX_VERSION", Some("1.2.1"))
  const DockerfileStatement3 := FromStatement(Token(From, "FROM"), Ident(Token(Expr, "tonistiigi/xx:${XX_VERSION}")), Some(Ident(Token(Expr, "xx"))), [Argument(Token(Expr, "--platform=$BUILDPLATFORM"), "platform", "$BUILDPLATFORM")])
  const DockerfileStatement4 := FromStatement(Token(From, "FROM"), Ident(Token(Expr, "golang:1.22.5-alpine3.20")), Some(Ident(Token(Expr, "build-base"))), [Argument(Token(Expr, "--platform=$BUILDPLATFORM"), "platform", "$BUILDPLATFORM")])
  const DockerfileStatement5 := CopyStatement(Token(Copy, "COPY"), Ident(Token(Expr, "/")), Ident(Token(Expr, "/")), [Argument(Token(Expr, "--from=xx"), "from", "xx")])

  /** The statement that starts at token 0 of the input of TestDockerfile. */
  lemma DockerfileReadAt0(src: Stream)
    requires StreamOk(src)
    requires src.tokens(0) == Done(Token(Comment, "#"))
    requires src.tokens(1) == Done(Token(Expr, "syntax=docker/dockerfile:1"))
    requires src.tokens(2) == Done(Token(Eol, "\n"))
    requires src.tokens(3) == Done(Token(Comment, "#"))
    ensures ParseCommentStatement(Parser(src, 0, Token(Comment, "#"), Token(Expr, "syntax=docker/dockerfile:1"), [])) == Done((Some(DockerfileStatement0), Parser(src, 2, Token(Eol, "\n"), Token(Comment, "#"), [])))
  {
    assert ExpectPeek(Parser(src, 0, Token(Comment, "#"), Token(Expr, "syntax=docker/dockerfile:1"), []), Expr) == Done((true, Parser(src, 1, Token(Expr, "syntax=docker/dockerfile:1"), Token(Eol, "\n"), [])));
    assert ExpectPeekEnd(Parser(src, 1, Token(Expr, "syntax=docker/dockerfile:1"), Token(Eol, "\n"), [])) == Done(Parser(src, 2, Token(Eol, "\n"), Token(Comment, "#"), []));
  }

  /** `parseStatement` at token 0 of the input of TestDockerfile. */
  lemma DockerfileStatementAt0(src: Stream)
    requires StreamOk(src)
    requires src.tokens(0) == Done(Token(Comment, "#"))
    requires src.tokens(1) == Done(Token(Expr, "syntax=docker/dockerfile:1"))
    requires src.tokens(2) == Done(Token(Eol, "\n"))
    requires src.tokens(3) == Done(Token(Comment, "#"))
    ensures ParseStatement(Parser(src, 0, Token(Comment, "#"), Token(Expr, "syntax=docker/dockerfile:1"), [])) == Done((Some(Boxed(Comment, Some(DockerfileStatement0))), Parser(src, 2, Token(Eol, "\n"), Token(Comment, "#"), [])))
  {
    DockerfileReadAt0(src);
    CommentStep(Parser(src, 0, Token(Comment, "#"), Token(Expr, "syntax=docker/dockerfile:1"), []), DockerfileStatement0, Parser(src, 2, Token(Eol, "\n"), Token(Comment, "#"), []));
  }

  /** The statement that starts at token 3 of the input of TestDockerfile. */
  lemma DockerfileReadAt3(src: Stream)
    requires StreamOk(src)
    requires src.tokens(3) == Done(Token(Comment, "#"))
    requires src.tokens(4) == Done(Token(Expr, "check=error=true"))
    requires src.tokens(5) == Done(Token(Eol, "\n"))
    requires src.tokens(6) == Done(Token(Eol, "\n"))
    ensures ParseCommentStatement(Parser(src, 3, Token(Comment, "#"), Token(Expr, "check=error=true"), [])) == Done((Some(DockerfileStatement1), Parser(src, 5, Token(Eol, "\n"), Token(Eol, "\n"), [])))
  {
    assert ExpectPeek(Parser(src, 3, Token(Comment, "#"), Token(Expr, "check=error=true"), []), Expr) == Done((true, Parser(src, 4, Token(Expr, "check=error=true"), Token(Eol, "\n"), [])));
    assert ExpectPeekEnd(Parser(src, 4, Token(Expr, "check=error=true"), Token(Eol, "\n"), [])) == Done(Parser(src, 5, Token(Eol, "\n"), Token(Eol, "\n"), []));
  }

  /** `parseStatement` at token 3 of the input of TestDockerfile. */
  lemma DockerfileStatementAt3(src: Stream)
    requires StreamOk(src)
    requires src.tokens(3) == Done(Token(Comment, "#"))
    requires src.tokens(4) == Done(Token(Expr, "check=error=true"))
    requires src.tokens(5) == Done(Token(Eol, "\n"))
    requires src.tokens(6) == Done(Token(Eol, "\n"))
    ensures ParseStatement(Parser(src, 3, Token(Comment, "#"), Token(Expr, "check=error=true"), [])) == Done((Some(Boxed(Comment, Some(DockerfileStatement1))), Parser(src, 5, Token(Eol, "\n"), Token(Eol, "\n"), [])))
  {
    DockerfileReadAt3(src);
    CommentStep(Parser(src, 3, Token(Comment, "#"), Token(Expr, "check=error=true"), []), DockerfileStatement1, Parser(src, 5, Token(Eol, "\n"), Token(Eol, "\n"), []));
  }

  /** The statement that starts at token 7 of the input of TestDockerfile. */
  lemma DockerfileReadAt7(src: Stream)
    requires StreamOk(src)
    requires src.tokens(7) == Done(Token(Arg, "ARG"))
    requires src.tokens(8) == Done(Token(Expr, "XX_VERSION=1.2.1"))
    requires src.tokens(9) == Done(Token(Eol, "\n"))
    requires src.tokens(10) == Done(Token(Eol, "\n"))
    ensures ParseArgStatement(Parser(src, 7, Token(Arg, "ARG"), Token(Expr, "XX_VERSION=1.2.1"), [])) == Done((Some(DockerfileStatement2), Parser(src, 9, Token(Eol, "\n"), Token(Eol, "\n"), [])))
  {
    assert ExpectPeek(Parser(src, 7, Token(Arg, "ARG"), Token(Expr, "XX_VERSION=1.2.1"), []), Expr) == Done((true, Parser(src, 8, Token(Expr, "XX_VERSION=1.2.1"), Token(Eol, "\n"), [])));
    CutAtFirst("XX_VERSION=1.2.1", '=', "XX_VERSION", "1.2.1");
    assert ExpectPeekEnd(Parser(src, 8, Token(Expr, "XX_VERSION=1.2.1"), Token(Eol, "\n"), [])) == Done(Parser(src, 9, Token(Eol, "\n"), Token(Eol, "\n"), []));
  }

  /** `parseStatement` at token 7 of the input of TestDockerfile. */
  lemma DockerfileStatementAt7(src: Stream)
    requires StreamOk(src)
    requires src.tokens(7) == Done(Token(Arg, "ARG"))
    requires src.tokens(8) == Done(Token(Expr, "XX_VERSION=1.2.1"))
    requires src.tokens(9) == Done(Token(Eol, "\n"))
    requires src.tokens(10) == Done(Token(Eol, "\n"))
    ensures ParseStatement(Parser(src, 7, Token(Arg, "ARG"), Token(Expr, "XX_VERSION=1.2.1"), [])) == Done((Some(Boxed(Arg, Some(DockerfileStatement2))), Parser(src, 9, Token(Eol, "\n"), Token(Eol, "\n"), [])))
  {
    DockerfileReadAt7(src);
    ArgStep(Parser(src, 7, Token(Arg, "ARG"), Token(Expr, "XX_VERSION=1.2.1"), []), DockerfileStatement2, Parser(src, 9, Token(Eol, "\n"), Token(Eol, "\n"), []));
  }

  /** How the flag at token 12 of TestDockerfile splits. */
  lemma DockerfileFlag12()
    ensures IsFlag("--platform=$BUILDPLATFORM") && Cut("--platform=$BUILDPLATFORM"[2..], '=') == ("platform", "$BUILDPLATFORM", true)
  {
    assert "--platform=$BUILDPLATFORM"[2..] == "platform=$BUILDPLATFORM";
    CutAtFirst("platform=$BUILDPLATFORM", '=', "platform", "$BUILDPLATFORM");
  }

  /** The flags read from token 12 of the input of TestDockerfile. */
  lemma DockerfileFlagsAt12(src: Stream)
    requires StreamOk(src)
    requires src.tokens(12) == Done(Token(Expr, "--platform=$BUILDPLATFORM"))
    requires src.tokens(13) == Done(Token(Expr, "tonistiigi/xx:${XX_VERSION}"))
    requires src.tokens(14) == Done(Token(As, "AS"))
    ensures ParseArguments(Parser(src, 12, Token(Expr, "--platform=$BUILDPLATFORM"), Token(Expr, "tonistiigi/xx:${XX_VERSION}"), [])) == Done(([Argument(Token(Expr, "--platform=$BUILDPLATFORM"), "platform", "$BUILDPLATFORM")], Parser(src, 13, Token(Expr, "tonistiigi/xx:${XX_VERSION}"), Token(As, "AS"), [])))
  {
    DockerfileFlag12();
    assert !IsFlag("tonistiigi/xx:${XX_VERSION}");
    OneFlag(Parser(src, 12, Token(Expr, "--platform=$BUILDPLATFORM"), Token(Expr, "tonistiigi/xx:${XX_VERSION}"), []), "platform", "$BUILDPLATFORM", Parser(src, 13, Token(Expr, "tonistiigi/xx:${XX_VERSION}"), Token(As, "AS"), []));
  }

  /** The `AS` part and the line end after the source at token 13 of TestDockerfile. */
  lemma DockerfileAliasAt13(src: Stream)
    requires StreamOk(src)
    requires src.tokens(13) == Done(Token(Expr, "tonistiigi/xx:${XX_VERSION}"))
    requires src.tokens(14) == Done(Token(As, "AS"))
    requires src.tokens(15) == Done(Token(Expr, "xx"))
    requires src.tokens(16) == Done(Token(Eol, "\n"))
    requires src.tokens(17) == Done(Token(Eol, "\n"))
    ensures FromAlias(Parser(src, 13, Token(Expr, "tonistiigi/xx:${XX_VERSION}"), Token(As, "AS"), [])) == Done((Some(Ident(Token(Expr, "xx"))), Parser(src, 15, Token(Expr, "xx"), Token(Eol, "\n"), []))) && ExpectPeekEnd(Parser(src, 15, Token(Expr, "xx"), Token(Eol, "\n"), [])) == Done(Parser(src, 16, Token(Eol, "\n"), Token(Eol, "\n"), []))
  {
  }

  /** The statement that starts at token 11 of the input of TestDockerfile. */
  lemma DockerfileReadAt11(src: Stream)
    requires StreamOk(src)
    requires src.tokens(11) == Done(Token(From, "FROM"))
    requires src.tokens(12) == Done(Token(Expr, "--platform=$BUILDPLATFORM"))
    requires src.tokens(13) == Done(Token(Expr, "tonistiigi/xx:${XX_VERSION}"))
    requires src.tokens(14) == Done(Token(As, "AS"))
    requires src.tokens(15) == Done(Token(Expr, "xx"))
    requires src.tokens(16) == Done(Token(Eol, "\n"))
    requires src.tokens(17) == Done(Token(Eol, "\n"))
    ensures ParseFromStatement(Parser(src, 11, Token(From, "FROM"), Token(Expr, "--platform=$BUILDPLATFORM"), [])) == Done((Some(DockerfileStatement3), Parser(src, 16, Token(Eol, "\n"), Token(Eol, "\n"), [])))
  {
    assert ExpectPeek(Parser(src, 11, Token(From, "FROM"), Token(Expr, "--platform=$BUILDPLATFORM"), []), Expr) == Done((true, Parser(src, 12, Token(Expr, "--platform=$BUILDPLATFORM"), Token(Expr, "tonistiigi/xx:${XX_VERSION}"), [])));
    DockerfileFlagsAt12(src);
    DockerfileAliasAt13(src);
  }

  /** `parseStatement` at token 11 of the input of TestDockerfile. */
  lemma DockerfileStatementAt11(src: Stream)
    requires StreamOk(src)
    requires src.tokens(11) == Done(Token(From, "FROM"))
    requires src.tokens(12) == Done(Token(Expr, "--platform=$BUILDPLATFORM"))
    requires src.tokens(13) == Done(Token(Expr, "tonistiigi/xx:${XX_VERSION}"))
    requires src.tokens(14) == Done(Token(As, "AS"))
    requires src.tokens(15) == Done(Token(Expr, "xx"))
    requires src.tokens(16) == Done(Token(Eol, "\n"))
    requires src.tokens(17) == Done(Token(Eol, "\n"))
    ensures ParseStatement(Parser(src, 11, Token(From, "FROM"), Token(Expr, "--platform=$BUILDPLATFORM"), [])) == Done((Some(Boxed(From, Some(DockerfileStatement3))), Parser(src, 16, Token(Eol, "\n"), Token(Eol, "\n"), [])))
  {
    DockerfileReadAt11(src);
    FromStep(Parser(src, 11, Token(From, "FROM"), Token(Expr, "--platform=$BUILDPLATFORM"), []), DockerfileStatement3, Parser(src, 16, Token(Eol, "\n"), Token(Eol, "\n"), []));
  }

  /** How the flag at token 19 of TestDockerfile splits. */
  lemma DockerfileFlag19()
    ensures IsFlag("--platform=$BUILDPLATFORM") && Cut("--platform=$BUILDPLATFORM"[2..], '=') == ("platform", "$BUILDPLATFORM", true)
  {
    assert "--platform=$BUILDPLATFORM"[2..] == "platform=$BUILDPLATFORM";
    CutAtFirst("platform=$BUILDPLATFORM", '=', "platform", "$BUILDPLATFORM");
  }

  /** The flags read from token 19 of the input of TestDockerfile. */
  lemma DockerfileFlagsAt19(src: Stream)
    requires StreamOk(src)
    requires src.tokens(19) == Done(Token(Expr, "--platform=$BUILDPLATFORM"))
    requires src.tokens(20) == Done(Token(Expr, "golang:1.22.5-alpine3.20"))
    requires src.tokens(21) == Done(Token(As, "AS"))
    ensures ParseArguments(Parser(src, 19, Token(Expr, "--platform=$BUILDPLATFORM"), Token(Expr, "golang:1.22.5-alpine3.20"), [])) == Done(([Argument(Token(Expr, "--platform=$BUILDPLATFORM"), "platform", "$BUILDPLATFORM")], Parser(src, 20, Token(Expr, "golang:1.22.5-alpine3.20"), Token(As, "AS"), [])))
  {
    DockerfileFlag19();
    assert !IsFlag("golang:1.22.5-alpine3.20");
    OneFlag(Parser(src, 19, Token(Expr, "--platform=$BUILDPLATFORM"), Token(Expr, "golang:1.22.5-alpine3.20"), []), "platform", "$BUILDPLATFORM", Parser(src, 20, Token(Expr, "golang:1.22.5-alpine3.20"), Token(As, "AS"), []));
  }

  /** The `AS` part and the line end after the source at token 20 of TestDockerfile. */
  lemma DockerfileAliasAt20(src: Stream)
    requires StreamOk(src)
    requires src.tokens(20) == Done(Token(Expr, "golang:1.22.5-alpine3.20"))
    requires src.tokens(21) == Done(Token(As, "AS"))
    requires src.tokens(22) == Done(Token(Expr, "build-base"))
    requires src.tokens(23) == Done(Token(Eol, "\n"))
    requires src.tokens(24) == Done(Token(Copy, "COPY"))
    ensures FromAlias(Parser(src, 20, Token(Expr, "golang:1.22.5-alpine3.20"), Token(As, "AS"), [])) == Done((Some(Ident(Token(Expr, "build-base"))), Parser(src, 22, Token(Expr, "build-base"), Token(Eol, "\n"), []))) && ExpectPeekEnd(Parser(src, 22, Token(Expr, "build-base"), Token(Eol, "\n"), [])) == Done(Parser(src, 23, Token(Eol, "\n"), Token(Copy, "COPY"), []))
  {
  }

  /** The statement that starts at token 18 of the input of TestDockerfile. */
  lemma DockerfileReadAt18(src: Stream)
    requires StreamOk(src)
    requires src.tokens(18) == Done(Token(From, "FROM"))
    requires src.tokens(19) == Done(Token(Expr, "--platform=$BUILDPLATFORM"))
    requires src.tokens(20) == Done(Token(Expr, "golang:1.22.5-alpine3.20"))
    requires src.tokens(21) == Done(Token(As, "AS"))
    requires src.tokens(22) == Done(Token(Expr, "build-base"))
    requires src.tokens(23) == Done(Token(Eol, "\n"))
    requires src.tokens(24) == Done(Token(Copy, "COPY"))
    ensures ParseFromStatement(Parser(src, 18, Token(From, "FROM"), Token(Expr, "--platform=$BUILDPLATFORM"), [])) == Done((Some(DockerfileStatement4), Parser(src, 23, Token(Eol, "\n"), Token(Copy, "COPY"), [])))
  {
    assert ExpectPeek(Parser(src, 18, Token(From, "FROM"), Token(Expr, "--platform=$BUILDPLATFORM"), []), Expr) == Done((true, Parser(src, 19, Token(Expr, "--platform=$BUILDPLATFORM"), Token(Expr, "golang:1.22.5-alpine3.20"), [])));
    DockerfileFlagsAt19(src);
    DockerfileAliasAt20(src);
  }

  /** `parseStatement` at token 18 of the input of TestDockerfile. */
  lemma DockerfileStatementAt18(src: Stream)
    requires StreamOk(src)
    requires src.tokens(18) == Done(Token(From, "FROM"))
    requires src.tokens(19) == Done(Token(Expr, "--platform=$BUILDPLATFORM"))
    requires src.tokens(20) == Done(Token(Expr, "golang:1.22.5-alpine3.20"))
    requires src.tokens(21) == Done(Token(As, "AS"))
    requires src.tokens(22) == Done(Token(Expr, "build-base"))
    requires src.tokens(23) == Done(Token(Eol, "\n"))
    requires src.tokens(24) == Done(Token(Copy, "COPY"))
    ensures ParseStatement(Parser(src, 18, Token(From, "FROM"), Token(Expr, "--platform=$BUILDPLATFORM"), [])) == Done((Some(Boxed(From, Some(DockerfileStatement4))), Parser(src, 23, Token(Eol, "\n"), Token(Copy, "COPY"), [])))
  {
    DockerfileReadAt18(src);
    FromStep(Parser(src, 18, Token(From, "FROM"), Token(Expr, "--platform=$BUILDPLATFORM"), []), DockerfileStatement4, Parser(src, 23, Token(Eol, "\n"), Token(Copy, "COPY"), []));
  }

  /** How the flag at token 25 of TestDockerfile splits. */
  lemma DockerfileFlag25()
    ensures IsFlag("--from=xx") && Cut("--from=xx"[2..], '=') == ("from", "xx", true)
  {
    assert "--from=xx"[2..] == "from=xx";
    CutAtFirst("from=xx", '=', "from", "xx");
  }

  /** The flags read from token 25 of the input of TestDockerfile. */
  lemma DockerfileFlagsAt25(src: Stream)
    requires StreamOk(src)
    requires src.tokens(25) == Done(Token(Expr, "--from=xx"))
    requires src.tokens(26) == Done(Token(Expr, "/"))
    requires src.tokens(27) == Done(Token(Expr, "/"))
    ensures ParseArguments(Parser(src, 25, Token(Expr, "--from=xx"), Token(Expr, "/"), [])) == Done(([Argument(Token(Expr, "--from=xx"), "from", "xx")], Parser(src, 26, Token(Expr, "/"), Token(Expr, "/"), [])))
  {
    DockerfileFlag25();
    assert !IsFlag("/");
    OneFlag(Parser(src, 25, Token(Expr, "--from=xx"), Token(Expr, "/"), []), "from", "xx", Parser(src, 26, Token(Expr, "/"), Token(Expr, "/"), []));
  }

  /** The destination after token 26 of TestDockerfile, and the line end after it. */
  lemma DockerfileDestAt26(src: Stream)
    requires StreamOk(src)
    requires src.tokens(26) == Done(Token(Expr, "/"))
    requires src.tokens(27) == Done(Token(Expr, "/"))
    requires src.tokens(28) == Done(Token(Eol, "\n"))
    requires src.tokens(29) == Done(Token(Eof, ""))
    ensures ExpectPeek(Parser(src, 26, Token(Expr, "/"), Token(Expr, "/"), []), Expr) == Done((true, Parser(src, 27, Token(Expr, "/"), Token(Eol, "\n"), []))) && ExpectPeekEnd(Parser(src, 27, Token(Expr, "/"), Token(Eol, "\n"), [])) == Done(Parser(src, 28, Token(Eol, "\n"), Token(Eof, ""), []))
  {
  }

  /** The statement that starts at token 24 of the input of TestDockerfile. */
  lemma DockerfileReadAt24(src: Stream)
    requires StreamOk(src)
    requires src.tokens(24) == Done(Token(Copy, "COPY"))
    requires src.tokens(25) == Done(Token(Expr, "--from=xx"))
    requires src.tokens(26) == Done(Token(Expr, "/"))
    requires src.tokens(27) == Done(Token(Expr, "/"))
    requires src.tokens(28) == Done(Token(Eol, "\n"))
    requires src.tokens(29) == Done(Token(Eof, ""))
    ensures ParseCopyStatement(Parser(src, 24, Token(Copy, "COPY"), Token(Expr, "--from=xx"), [])) == Done((Some(DockerfileStatement5), Parser(src, 28, Token(Eol, "\n"), Token(Eof, ""), [])))
  {
    assert ExpectPeek(Parser(src, 24, Token(Copy, "COPY"), Token(Expr, "--from=xx"), []), Expr) == Done((true, Parser(src, 25, Token(Expr, "--from=xx"), Token(Expr, "/"), [])));
    DockerfileFlagsAt25(src);
    DockerfileDestAt26(src);
  }

  /** `parseStatement` at token 24 of the input of TestDockerfile. */
  lemma DockerfileStatementAt24(src: Stream)
    requires StreamOk(src)
    requires src.tokens(24) == Done(Token(Copy, "COPY"))
    requires src.tokens(25) == Done(Token(Expr, "--from=xx"))
    requires src.tokens(26) == Done(Token(Expr, "/"))
    requires src.tokens(27) == Done(Token(Expr, "/"))
    requires src.tokens(28) == Done(Token(Eol, "\n"))
    requires src.tokens(29) == Done(Token(Eof, ""))
    ensures ParseStatement(Parser(src, 24, Token(Copy, "COPY"), Token(Expr, "--from=xx"), [])) == Done((Some(Boxed(Copy, Some(DockerfileStatement5))), Parser(src, 28, Token(Eol, "\n"), Token(Eof, ""), [])))
  {
    DockerfileReadAt24(src);
    CopyStep(Parser(src, 24, Token(Copy, "COPY"), Token(Expr, "--from=xx"), []), DockerfileStatement5, Parser(src, 28, Token(Eol, "\n"), Token(Eof, ""), []));
  }

  /** The statement at token 0 of TestDockerfile joins the directives. */
  lemma DockerfileKept0()
    ensures Keep(Program([], []), Some(Boxed(Comment, Some(DockerfileStatement0)))) == Program([DockerfileStatement0], [])
  {
  }

  /** One round of the loop over the tokens of TestDockerfile: the statement at token 0 is kept, and the loop moves on to token 3. */
  lemma DockerfileRound0(src: Stream)
    requires StreamOk(src)
    requires src.tokens(0) == Done(Token(Comment, "#"))
    requires src.tokens(1) == Done(Token(Expr, "syntax=docker/dockerfile:1"))
    requires src.tokens(2) == Done(Token(Eol, "\n"))
    requires src.tokens(3) == Done(Token(Comment, "#"))
    requires src.tokens(4) == Done(Token(Expr, "check=error=true"))
    ensures Parsing.Valid(Parser(src, 0, Token(Comment, "#"), Token(Expr, "syntax=docker/dockerfile:1"), [])) && Parsing.Valid(Parser(src, 3, Token(Comment, "#"), Token(Expr, "check=error=true"), []))
    ensures ParseProgramFrom(Parser(src, 0, Token(Comment, "#"), Token(Expr, "syntax=docker/dockerfile:1"), []), Program([], [])) == ParseProgramFrom(Parser(src, 3, Token(Comment, "#"), Token(Expr, "check=error=true"), []), Program([DockerfileStatement0], []))
  {
    DockerfileStatementAt0(src);
    DockerfileKept0();
    LoopStep(Parser(src, 0, Token(Comment, "#"), Token(Expr, "syntax=docker/dockerfile:1"), []), Program([], []), Some(Boxed(Comment, Some(DockerfileStatement0))), Parser(src, 2, Token(Eol, "\n"), Token(Comment, "#"), []), Parser(src, 3, Token(Comment, "#"), Token(Expr, "check=error=true"), []), Program([DockerfileStatement0], []));
  }

  /** The statement at token 3 of TestDockerfile joins the directives. */
  lemma DockerfileKept3()
    ensures Keep(Program([DockerfileStatement0], []), Some(Boxed(Comment, Some(DockerfileStatement1)))) == Program([DockerfileStatement0, DockerfileStatement1], [])
  {
  }

  /** One round of the loop over the tokens of TestDockerfile: the statement at token 3 is kept, and the loop moves on to token 6. */
  lemma DockerfileRound3(src: Stream)
    requires StreamOk(src)
    requires src.tokens(3) == Done(Token(Comment, "#"))
    requires src.tokens(4) == Done(Token(Expr, "check=error=true"))
    requires src.tokens(5) == Done(Token(Eol, "\n"))
    requires src.tokens(6) == Done(Token(Eol, "\n"))
    requires src.tokens(7) == Done(Token(Arg, "ARG"))
    ensures Parsing.Valid(Parser(src, 3, Token(Comment, "#"), Token(Expr, "check=error=true"), [])) && Parsing.Valid(Parser(src, 6, Token(Eol, "\n"), Token(Arg, "ARG"), []))
    ensures ParseProgramFrom(Parser(src, 3, Token(Comment, "#"), Token(Expr, "check=error=true"), []), Program([DockerfileStatement0], [])) == ParseProgramFrom(Parser(src, 6, Token(Eol, "\n"), Token(Arg, "ARG"), []), Program([DockerfileStatement0, DockerfileStatement1], []))
  {
    DockerfileStatementAt3(src);
    DockerfileKept3();
    LoopStep(Parser(src, 3, Token(Comment, "#"), Token(Expr, "check=error=true"), []), Program([DockerfileStatement0], []), Some(Boxed(Comment, Some(DockerfileStatement1))), Parser(src, 5, Token(Eol, "\n"), Token(Eol, "\n"), []), Parser(src, 6, Token(Eol, "\n"), Token(Arg, "ARG"), []), Program([DockerfileStatement0, DockerfileStatement1], []));
  }

  /** One round of the loop over the tokens of TestDockerfile: the line end at token 6 is passed over. */
  lemma DockerfileRound6(src: Stream)
    requires StreamOk(src)
    requires src.tokens(6) == Done(Token(Eol, "\n"))
    requires src.tokens(7) == Done(Token(Arg, "ARG"))
    requires src.tokens(8) == Done(Token(Expr, "XX_VERSION=1.2.1"))
    ensures Parsing.Valid(Parser(src, 6, Token(Eol, "\n"), Token(Arg, "ARG"), [])) && Parsing.Valid(Parser(src, 7, Token(Arg, "ARG"), Token(Expr, "XX_VERSION=1.2.1"), []))
    ensures ParseProgramFrom(Parser(src, 6, Token(Eol, "\n"), Token(Arg, "ARG"), []), Program([DockerfileStatement0, DockerfileStatement1], [])) == ParseProgramFrom(Parser(src, 7, Token(Arg, "ARG"), Token(Expr, "XX_VERSION=1.2.1"), []), Program([DockerfileStatement0, DockerfileStatement1], []))
  {
    LoopStep(Parser(src, 6, Token(Eol, "\n"), Token(Arg, "ARG"), []), Program([DockerfileStatement0, DockerfileStatement1], []), None, Parser(src, 6, Token(Eol, "\n"), Token(Arg, "ARG"), []), Parser(src, 7, Token(Arg, "ARG"), Token(Expr, "XX_VERSION=1.2.1"), []), Program([DockerfileStatement0, DockerfileStatement1], []));
  }

  /** The statement at token 7 of TestDockerfile joins the statements. */
  lemma DockerfileKept7()
    ensures Keep(Program([DockerfileStatement0, DockerfileStatement1], []), Some(Boxed(Arg, Some(DockerfileStatement2)))) == Program([DockerfileStatement0, DockerfileStatement1], [DockerfileStatement2])
  {
  }

  /** One round of the loop over the tokens of TestDockerfile: the statement at token 7 is kept, and the loop moves on to token 10. */
  lemma DockerfileRound7(src: Stream)
    requires StreamOk(src)
    requires src.tokens(7) == Done(Token(Arg, "ARG"))
    requires src.tokens(8) == Done(Token(Expr, "XX_VERSION=1.2.1"))
    requires src.tokens(9) == Done(Token(Eol, "\n"))
    requires src.tokens(10) == Done(Token(Eol, "\n"))
    requires src.tokens(11) == Done(Token(From, "FROM"))
    ensures Parsing.Valid(Parser(src, 7, Token(Arg, "ARG"), Token(Expr, "XX_VERSION=1.2.1"), [])) && Parsing.Valid(Parser(src, 10, Token(Eol, "\n"), Token(From, "FROM"), []))
    ensures ParseProgramFrom(Parser(src, 7, Token(Arg, "ARG"), Token(Expr, "XX_VERSION=1.2.1"), []), Program([DockerfileStatement0, DockerfileStatement1], [])) == ParseProgramFrom(Parser(src, 10, Token(Eol, "\n"), Token(From, "FROM"), []), Program([DockerfileStatement0, DockerfileStatement1], [DockerfileStatement2]))
  {
    DockerfileStatementAt7(src);
    DockerfileKept7();
    LoopStep(Parser(src, 7, Token(Arg, "ARG"), Token(Expr, "XX_VERSION=1.2.1"), []), Program([DockerfileStatement0, DockerfileStatement1], []), Some(Boxed(Arg, Some(DockerfileStatement2))), Parser(src, 9, Token(Eol, "\n"), Token(Eol, "\n"), []), Parser(src, 10, Token(Eol, "\n"), Token(From, "FROM"), []), Program([DockerfileStatement0, DockerfileStatement1], [DockerfileStatement2]));
  }

  /** One round of the loop over the tokens of TestDockerfile: the line end at token 10 is passed over. */
  lemma DockerfileRound10(src: Stream)
    requires StreamOk(src)
    requires src.tokens(10) == Done(Token(Eol, "\n"))
    requires src.tokens(11) == Done(Token(From, "FROM"))
    requires src.tokens(12) == Done(Token(Expr, "--platform=$BUILDPLATFORM"))
    ensures Parsing.Valid(Parser(src, 10, Token(Eol, "\n"), Token(From, "FROM"), [])) && Parsing.Valid(Parser(src, 11, Token(From, "FROM"), Token(Expr, "--platform=$BUILDPLATFORM"), []))
    ensures ParseProgramFrom(Parser(src, 10, Token(Eol, "\n"), Token(From, "FROM"), []), Program([DockerfileStatement0, DockerfileStatement1], [DockerfileStatement2])) == ParseProgramFrom(Parser(src, 11, Token(From, "FROM"), Token(Expr, "--platform=$BUILDPLATFORM"), []), Program([DockerfileStatement0, DockerfileStatement1], [DockerfileStatement2]))
  {
    LoopStep(Parser(src, 10, Token(Eol, "\n"), Token(From, "FROM"), []), Program([DockerfileStatement0, DockerfileStatement1], [DockerfileStatement2]), None, Parser(src, 10, Token(Eol, "\n"), Token(From, "FROM"), []), Parser(src, 11, Token(From, "FROM"), Token(Expr, "--platform=$BUILDPLATFORM"), []), Program([DockerfileStatement0, DockerfileStatement1], [DockerfileStatement2]));
  }

  /** The statement at token 11 of TestDockerfile joins the statements. */
  lemma DockerfileKept11()
    ensures Keep(Program([DockerfileStatement0, DockerfileStatement1], [DockerfileStatement2]), Some(Boxed(From, Some(DockerfileStatement3)))) == Program([DockerfileStatement0, DockerfileStatement1], [DockerfileStatement2, DockerfileStatement3])
  {
  }

  /** One round of the loop over the tokens of TestDockerfile: the statement at token 11 is kept, and the loop moves on to token 17. */
  lemma DockerfileRound11(src: Stream)
    requires StreamOk(src)
    requires src.tokens(11) == Done(Token(From, "FROM"))
    requires src.tokens(12) == Done(Token(Expr, "--platform=$BUILDPLATFORM"))
    requires src.tokens(13) == Done(Token(Expr, "tonistiigi/xx:${XX_VERSION}"))
    requires src.tokens(14) == Done(Token(As, "AS"))
    requires src.tokens(15) == Done(Token(Expr, "xx"))
    requires src.tokens(16) == Done(Token(Eol, "\n"))
    requires src.tokens(17) == Done(Token(Eol, "\n"))
    requires src.tokens(18) == Done(Token(From, "FROM"))
    ensures Parsing.Valid(Parser(src, 11, Token(From, "FROM"), Token(Expr, "--platform=$BUILDPLATFORM"), [])) && Parsing.Valid(Parser(src, 17, Token(Eol, "\n"), Token(From, "FROM"), []))
    ensures ParseProgramFrom(Parser(src, 11, Token(From, "FROM"), Token(Expr, "--platform=$BUILDPLATFORM"), []), Program([DockerfileStatement0, DockerfileStatement1], [DockerfileStatement2])) == ParseProgramFrom(Parser(src, 17, Token(Eol, "\n"), Token(From, "FROM"), []), Program([DockerfileStatement0, DockerfileStatement1], [DockerfileStatement2, DockerfileStatement3]))
  {
    DockerfileStatementAt11(src);
    DockerfileKept11();
    LoopStep(Parser(src, 11, Token(From, "FROM"), Token(Expr, "--platform=$BUILDPLATFORM"), []), Program([DockerfileStatement0, DockerfileStatement1], [DockerfileStatement2]), Some(Boxed(From, Some(DockerfileStatement3))), Parser(src, 16, Token(Eol, "\n"), Token(Eol, "\n"), []), Parser(src, 17, Token(Eol, "\n"), Token(From, "FROM"), []), Program([DockerfileStatement0, DockerfileStatement1], [DockerfileStatement2, DockerfileStatement3]));
  }

  /** One round of the loop over the tokens of TestDockerfile: the line end at token 17 is passed over. */
  lemma DockerfileRound17(src: Stream)
    requires StreamOk(src)
    requires src.tokens(17) == Done(Token(Eol, "\n"))
    requires src.tokens(18) == Done(Token(From, "FROM"))
    requires src.tokens(19) == Done(Token(Expr, "--platform=$BUILDPLATFORM"))
    ensures Parsing.Valid(Parser(src, 17, Token(Eol, "\n"), Token(From, "FROM"), [])) && Parsing.Valid(Parser(src, 18, Token(From, "FROM"), Token(Expr, "--platform=$BUILDPLATFORM"), []))
    ensures ParseProgramFrom(Parser(src, 17, Token(Eol, "\n"), Token(From, "FROM"), []), Program([DockerfileStatement0, DockerfileStatement1], [DockerfileStatement2, DockerfileStatement3])) == ParseProgramFrom(Parser(src, 18, Token(From, "FROM"), Token(Expr, "--platform=$BUILDPLATFORM"), []), Program([DockerfileStatement0, DockerfileStatement1], [DockerfileStatement2, DockerfileStatement3]))
  {
    LoopStep(Parser(src, 17, Token(Eol, "\n"), Token(From, "FROM"), []), Program([DockerfileStatement0, DockerfileStatement1], [DockerfileStatement2, DockerfileStatement3]), None, Parser(src, 17, Token(Eol, "\n"), Token(From, "FROM"), []), Parser(src, 18, Token(From, "FROM"), Token(Expr, "--platform=$BUILDPLATFORM"), []), Program([DockerfileStatement0, DockerfileStatement1], [DockerfileStatement2, DockerfileStatement3]));
  }

  /** The statement at token 18 of TestDockerfile joins the statements. */
  lemma DockerfileKept18()
    ensures Keep(Program([DockerfileStatement0, DockerfileStatement1], [DockerfileStatement2, DockerfileStatement3]), Some(Boxed(From, Some(DockerfileStatement4)))) == Program([DockerfileStatement0, DockerfileStatement1], [DockerfileStatement2, DockerfileStatement3, DockerfileStatement4])
  {
  }

  /** One round of the loop over the tokens of TestDockerfile: the statement at token 18 is kept, and the loop moves on to token 24. */
  lemma DockerfileRound18(src: Stream)
    requires StreamOk(src)
    requires src.tokens(18) == Done(Token(From, "FROM"))
    requires src.tokens(19) == Done(Token(Expr, "--platform=$BUILDPLATFORM"))
    requires src.tokens(20) == Done(Token(Expr, "golang:1.22.5-alpine3.20"))
    requires src.tokens(21) == Done(Token(As, "AS"))
    requires src.tokens(22) == Done(Token(Expr, "build-base"))
    requires src.tokens(23) == Done(Token(Eol, "\n"))
    requires src.tokens(24) == Done(Token(Copy, "COPY"))
    requires src.tokens(25) == Done(Token(Expr, "--from=xx"))
    ensures Parsing.Valid(Parser(src, 18, Token(From, "FROM"), Token(Expr, "--platform=$BUILDPLATFORM"), [])) && Parsing.Valid(Parser(src, 24, Token(Copy, "COPY"), Token(Expr, "--from=xx"), []))
    ensures ParseProgramFrom(Parser(src, 18, Token(From, "FROM"), Token(Expr, "--platform=$BUILDPLATFORM"), []), Program([DockerfileStatement0, DockerfileStatement1], [DockerfileStatement2, DockerfileStatement3])) == ParseProgramFrom(Parser(src, 24, Token(Copy, "COPY"), Token(Expr, "--from=xx"), []), Program([DockerfileStatement0, DockerfileStatement1], [DockerfileStatement2, DockerfileStatement3, DockerfileStatement4]))
  {
    DockerfileStatementAt18(src);
    DockerfileKept18();
    LoopStep(Parser(src, 18, Token(From, "FROM"), Token(Expr, "--platform=$BUILDPLATFORM"), []), Program([DockerfileStatement0, DockerfileStatement1], [DockerfileStatement2, DockerfileStatement3]), Some(Boxed(From, Some(DockerfileStatement4))), Parser(src, 23, Token(Eol, "\n"), Token(Copy, "COPY"), []), Parser(src, 24, Token(Copy, "COPY"), Token(Expr, "--from=xx"), []), Program([DockerfileStatement0, DockerfileStatement1], [DockerfileStatement2, DockerfileStatement3, DockerfileStatement4]));
  }

  /** The statement at token 24 of TestDockerfile joins the statements. */
  lemma DockerfileKept24()
    ensures Keep(Program([DockerfileStatement0, DockerfileStatement1], [DockerfileStatement2, DockerfileStatement3, DockerfileStatement4]), Some(Boxed(Copy, Some(DockerfileStatement5)))) == Program([DockerfileStatement0, DockerfileStatement1], [DockerfileStatement2, DockerfileStatement3, DockerfileStatement4, DockerfileStatement5])
  {
  }

  /** One round of the loop over the tokens of TestDockerfile: the statement at token 24 is kept, and the loop moves on to token 29. */
  lemma DockerfileRound24(src: Stream)
    requires StreamOk(src)
    requires src.tokens(24) == Done(Token(Copy, "COPY"))
    requires src.tokens(25) == Done(Token(Expr, "--from=xx"))
    requires src.tokens(26) == Done(Token(Expr, "/"))
    requires src.tokens(27) == Done(Token(Expr, "/"))
    requires src.tokens(28) == Done(Token(Eol, "\n"))
    requires src.tokens(29) == Done(Token(Eof, ""))
    requires src.tokens(30) == Done(Token(Eof, ""))
    ensures Parsing.Valid(Parser(src, 24, Token(Copy, "COPY"), Token(Expr, "--from=xx"), [])) && Parsing.Valid(Parser(src, 29, Token(Eof, ""), Token(Eof, ""), []))
    ensures ParseProgramFrom(Parser(src, 24, Token(Copy, "COPY"), Token(Expr, "--from=xx"), []), Program([DockerfileStatement0, DockerfileStatement1], [DockerfileStatement2, DockerfileStatement3, DockerfileStatement4])) == ParseProgramFrom(Parser(src, 29, Token(Eof, ""), Token(Eof, ""), []), Program([DockerfileStatement0, DockerfileStatement1], [DockerfileStatement2, DockerfileStatement3, DockerfileStatement4, DockerfileStatement5]))
  {
    DockerfileStatementAt24(src);
    DockerfileKept24();
    LoopStep(Parser(src, 24, Token(Copy, "COPY"), Token(Expr, "--from=xx"), []), Program([DockerfileStatement0, DockerfileStatement1], [DockerfileStatement2, DockerfileStatement3, DockerfileStatement4]), Some(Boxed(Copy, Some(DockerfileStatement5))), Parser(src, 28, Token(Eol, "\n"), Token(Eof, ""), []), Parser(src, 29, Token(Eof, ""), Token(Eof, ""), []), Program([DockerfileStatement0, DockerfileStatement1], [DockerfileStatement2, DockerfileStatement3, DockerfileStatement4, DockerfileStatement5]));
  }

  /** Parsing the tokens of TestDockerfile, from any stream that hands them out. */
  lemma DockerfileRun(src: Stream)
    requires StreamOk(src)
    requires src.tokens(0) == Done(Token(Comment, "#"))
    requires src.tokens(1) == Done(Token(Expr, "syntax=docker/dockerfile:1"))
    requires src.tokens(2) == Done(Token(Eol, "\n"))
    requires src.tokens(3) == Done(Token(Comment, "#"))
    requires src.tokens(4) == Done(Token(Expr, "check=error=true"))
    requires src.tokens(5) == Done(Token(Eol, "\n"))
    requires src.tokens(6) == Done(Token(Eol, "\n"))
    requires src.tokens(7) == Done(Token(Arg, "ARG"))
    requires src.tokens(8) == Done(Token(Expr, "XX_VERSION=1.2.1"))
    requires src.tokens(9) == Done(Token(Eol, "\n"))
    requires src.tokens(10) == Done(Token(Eol, "\n"))
    requires src.tokens(11) == Done(Token(From, "FROM"))
    requires src.tokens(12) == Done(Token(Expr, "--platform=$BUILDPLATFORM"))
    requires src.tokens(13) == Done(Token(Expr, "tonistiigi/xx:${XX_VERSION}"))
    requires src.tokens(14) == Done(Token(As, "AS"))
    requires src.tokens(15) == Done(Token(Expr, "xx"))
    requires src.tokens(16) == Done(Token(Eol, "\n"))
    requires src.tokens(17) == Done(Token(Eol, "\n"))
    requires src.tokens(18) == Done(Token(From, "FROM"))
    requires src.tokens(19) == Done(Token(Expr, "--platform=$BUILDPLATFORM"))
    requires src.tokens(20) == Done(Token(Expr, "golang:1.22.5-alpine3.20"))
    requires src.tokens(21) == Done(Token(As, "AS"))
    requires src.tokens(22) == Done(Token(Expr, "build-base"))
    requires src.tokens(23) == Done(Token(Eol, "\n"))
    requires src.tokens(24) == Done(Token(Copy, "COPY"))
    requires src.tokens(25) == Done(Token(Expr, "--from=xx"))
    requires src.tokens(26) == Done(Token(Expr, "/"))
    requires src.tokens(27) == Done(Token(Expr, "/"))
    requires src.tokens(28) == Done(Token(Eol, "\n"))
    requires src.tokens(29) == Done(Token(Eof, ""))
    requires src.tokens(30) == Done(Token(Eof, ""))
    ensures ParseProgram(Parser(src, 0, Token(Comment, "#"), Token(Expr, "syntax=docker/dockerfile:1"), [])) == Done((DockerfileProgram, Parser(src, 29, Token(Eof, ""), Token(Eof, ""), [])))
  {
    DockerfileRound0(src);
    DockerfileRound3(src);
    DockerfileRound6(src);
    DockerfileRound7(src);
    DockerfileRound10(src);
    DockerfileRound11(src);
    DockerfileRound17(src);
    DockerfileRound18(src);
    DockerfileRound24(src);
    assert ParseProgramFrom(Parser(src, 29, Token(Eof, ""), Token(Eof, ""), []), DockerfileProgram) == Done((DockerfileProgram, Parser(src, 29, Token(Eof, ""), Token(Eof, ""), [])));
  }

  /** The program TestDockerfile expects, in the model's terms. */
  const DockerfileProgram := Program([DockerfileStatement0, DockerfileStatement1], [DockerfileStatement2, DockerfileStatement3, DockerfileStatement4, DockerfileStatement5])

  /** The input of TestDockerfile lexes and parses, without an error, into the expected program. */
  lemma DockerfileParsed()
    ensures Parse(DockerfileInput) == Done((DockerfileProgram, []))
  {
    DockerfileLexed();
    DockerfileRun(LexerStream(Lexing.New(DockerfileInput)));
  }

  /** TestDockerfile: the input parses without error into two directives and four statements.
      The program is exactly the expected one, and the code as written, which
      keeps failed statements, builds the same program. */
  lemma DockerfileTest()
    ensures Parse(DockerfileInput).Done?
    ensures var (prog, errors) := Parse(DockerfileInput).value;
      && errors == [] && prog == DockerfileProgram
      && |prog.directive| == 2
      && |prog.statements| == 4
    ensures ParseAsWritten(DockerfileInput) == Done((Boxes(DockerfileProgram), []))
  {
    DockerfileParsed();
    ParseAsWrittenAgrees(DockerfileInput);
  }

  // ---------------------------------------------------------------------------
  // The Go test `TestArgStatement` (dockerfile/parser/parser_test.go:29-73)
  // ---------------------------------------------------------------------------

  /** Line 1 of the input of TestArgStatement. */
  const ArgsLine0: seq<Piece> := [Newline(Plain(""))]
  const ArgsTokens0: seq<Token> := [Token(Eol, "\n")]

  /** Line 2 of the input of TestArgStatement. */
  const ArgsLine1: seq<Piece> := [Word(Plain(""), "ARG"), Word(Plain(" "), "VERSION=latest"), Newline(Plain(""))]
  const ArgsTokens1: seq<Token> := [Token(Arg, "ARG"), Token(Expr, "VERSION=latest"), Token(Eol, "\n")]

  /** Line 3 of the input of TestArgStatement. */
  const ArgsLine2: seq<Piece> := [Newline(Plain(""))]
  const ArgsTokens2: seq<Token> := [Token(Eol, "\n")]

  /** Line 4 of the input of TestArgStatement. */
  const ArgsLine3: seq<Piece> := [Word(Plain(""), "ARG"), Word(Plain(" "), "BUILDPLATFORM"), Newline(Plain(""))]
  const ArgsTokens3: seq<Token> := [Token(Arg, "ARG"), Token(Expr, "BUILDPLATFORM"), Token(Eol, "\n")]

  /** Line 5 of the input of TestArgStatement. */
  const ArgsLine4: seq<Piece> := [Newline(Plain(""))]
  const ArgsTokens4: seq<Token> := [Token(Eol, "\n")]

  /** Line 6 of the input of TestArgStatement. */
  const ArgsLine5: seq<Piece> := [Word(Plain(""), "ARG"), Word(Plain(" "), "XX_VERSION"), Word(Plain(" "), "1.2.1")]
  const ArgsTokens5: seq<Token> := [Token(Arg, "ARG"), Token(Expr, "XX_VERSION"), Token(Expr, "1.2.1")]

  /** The input of TestArgStatement, line by line, and its tokens. */
  const ArgsLines: seq<seq<Piece>> := [ArgsLine0, ArgsLine1, ArgsLine2, ArgsLine3, ArgsLine4, ArgsLine5]
  const ArgsTokenLines: seq<seq<Token>> := [ArgsTokens0, ArgsTokens1, ArgsTokens2, ArgsTokens3, ArgsTokens4, ArgsTokens5]
  const ArgsInput := Input(Lines(ArgsLines))

  /** Every token the parser draws from the input of TestArgStatement, the end-of-input
      tokens after it included. */
  const ArgsStream: seq<Token> := [Token(Eol, "\n"), Token(Arg, "ARG"), Token(Expr, "VERSION=latest"), Token(Eol, "\n"), Token(Eol, "\n"), Token(Arg, "ARG"), Token(Expr, "BUILDPLATFORM"), Token(Eol, "\n"), Token(Eol, "\n"), Token(Arg, "ARG"), Token(Expr, "XX_VERSION"), Token(Expr, "1.2.1"), Token(Eof, ""), Token(Eof, ""), Token(Eof, "")]

  lemma ReadArgsLine0()
    ensures ValidLine(ArgsLine0, ArgsTokens0)
  {
  }

  /** A piece of the parser test inputs that reads as its token. */
  lemma Piece5()
    ensures ValidPiece(Word(Plain(" "), "VERSION=latest")) && TokenOf(Word(Plain(" "), "VERSION=latest")) == Token(Expr, "VERSION=latest") && EndsWord(Word(Plain(" "), "VERSION=latest"))
  {
    PrintableWord(Plain(" "), "VERSION=latest");
  }

  lemma ReadArgsLine1()
    ensures ValidLine(ArgsLine1, ArgsTokens1)
  {
    Piece1();
    Piece5();
  }

  lemma ReadArgsLine2()
    ensures ValidLine(ArgsLine2, ArgsTokens2)
  {
  }

  /** A piece of the parser test inputs that reads as its token. */
  lemma Piece6()
    ensures ValidPiece(Word(Plain(" "), "BUILDPLATFORM")) && TokenOf(Word(Plain(" "), "BUILDPLATFORM")) == Token(Expr, "BUILDPLATFORM") && EndsWord(Word(Plain(" "), "BUILDPLATFORM"))
  {
    PrintableWord(Plain(" "), "BUILDPLATFORM");
  }

  lemma ReadArgsLine3()
    ensures ValidLine(ArgsLine3, ArgsTokens3)
  {
    Piece1();
    Piece6();
  }

  lemma ReadArgsLine4()
    ensures ValidLine(ArgsLine4, ArgsTokens4)
  {
  }

  /** A piece of the parser test inputs that reads as its token. */
  lemma Piece7()
    ensures ValidPiece(Word(Plain(" "), "XX_VERSION")) && TokenOf(Word(Plain(" "), "XX_VERSION")) == Token(Expr, "XX_VERSION") && EndsWord(Word(Plain(" "), "XX_VERSION"))
  {
    PrintableWord(Plain(" "), "XX_VERSION");
  }

  /** A piece of the parser test inputs that reads as its token. */
  lemma Piece8()
    ensures ValidPiece(Word(Plain(" "), "1.2.1")) && TokenOf(Word(Plain(" "), "1.2.1")) == Token(Expr, "1.2.1") && EndsWord(Word(Plain(" "), "1.2.1"))
  {
    PrintableWord(Plain(" "), "1.2.1");
  }

  lemma ReadArgsLine5()
    ensures ValidRun(ArgsLine5, ArgsTokens5)
  {
    Piece1();
    Piece7();
    Piece8();
  }

  /** The tokens of the lines of TestArgStatement, one after another, then the end of input. */
  lemma ArgsConcat()
    ensures Concat(ArgsTokenLines) + Eofs(3) == ArgsStream
  {
    assert Concat(ArgsTokenLines) == ArgsTokens0 + (ArgsTokens1 + (ArgsTokens2 + (ArgsTokens3 + (ArgsTokens4 + (ArgsTokens5 + ([])))))) by {
      assert ArgsTokenLines[6..] == [];
      ConcatStep(ArgsTokenLines, 5);
      ConcatStep(ArgsTokenLines, 4);
      ConcatStep(ArgsTokenLines, 3);
      ConcatStep(ArgsTokenLines, 2);
      ConcatStep(ArgsTokenLines, 1);
      ConcatStep(ArgsTokenLines, 0);
      assert ArgsTokenLines[0..] == ArgsTokenLines;
    }
    assert Eofs(3) == [Token(Eof, ""), Token(Eof, ""), Token(Eof, "")] by {
      assert Eofs(1) == [Token(Eof, "")];
      assert Eofs(2) == [Token(Eof, ""), Token(Eof, "")];
    }
  }

  /** The lexer reads the input of TestArgStatement as exactly these tokens. */
  lemma ArgsRead()
    ensures Lexing.TakeTokens(Lexing.New(ArgsInput), |ArgsStream|) == Done(ArgsStream)
  {
    ReadArgsLine0();
    ReadArgsLine1();
    ReadArgsLine2();
    ReadArgsLine3();
    ReadArgsLine4();
    ReadArgsLine5();
    OpenLinesFacts(ArgsLines, ArgsTokenLines);
    ArgsConcat();
    ReadAllToEnd(Lines(ArgsLines), 3, |ArgsStream|, ArgsStream);
  }

  /** The lexer reads the input of TestArgStatement as these tokens, then the end of input. */
  lemma ArgsLexed()
    ensures var s := LexerStream(Lexing.New(ArgsInput));
      && s.tokens(0) == Done(Token(Eol, "\n"))
      && s.tokens(1) == Done(Token(Arg, "ARG"))
      && s.tokens(2) == Done(Token(Expr, "VERSION=latest"))
      && s.tokens(3) == Done(Token(Eol, "\n"))
      && s.tokens(4) == Done(Token(Eol, "\n"))
      && s.tokens(5) == Done(Token(Arg, "ARG"))
      && s.tokens(6) == Done(Token(Expr, "BUILDPLATFORM"))
      && s.tokens(7) == Done(Token(Eol, "\n"))
      && s.tokens(8) == Done(Token(Eol, "\n"))
      && s.tokens(9) == Done(Token(Arg, "ARG"))
      && s.tokens(10) == Done(Token(Expr, "XX_VERSION"))
      && s.tokens(11) == Done(Token(Expr, "1.2.1"))
      && s.tokens(12) == Done(Token(Eof, ""))
      && s.tokens(13) == Done(Token(Eof, ""))
      && s.tokens(14) == Done(Token(Eof, ""))
  {
    ArgsRead();
    TakeTokensAt(Lexing.New(ArgsInput), |ArgsStream|, ArgsStream, 0);
    TakeTokensAt(Lexing.New(ArgsInput), |ArgsStream|, ArgsStream, 1);
    TakeTokensAt(Lexing.New(ArgsInput), |ArgsStream|, ArgsStream, 2);
    TakeTokensAt(Lexing.New(ArgsInput), |ArgsStream|, ArgsStream, 3);
    TakeTokensAt(Lexing.New(ArgsInput), |ArgsStream|, ArgsStream, 4);
    TakeTokensAt(Lexing.New(ArgsInput), |ArgsStream|, ArgsStream, 5);
    TakeTokensAt(Lexing.New(ArgsInput), |ArgsStream|, ArgsStream, 6);
    TakeTokensAt(Lexing.New(ArgsInput), |ArgsStream|, ArgsStream, 7);
    TakeTokensAt(Lexing.New(ArgsInput), |ArgsStream|, ArgsStream, 8);
    TakeTokensAt(Lexing.New(ArgsInput), |ArgsStream|, ArgsStream, 9);
    TakeTokensAt(Lexing.New(ArgsInput), |ArgsStream|, ArgsStream, 10);
    TakeTokensAt(Lexing.New(ArgsInput), |ArgsStream|, ArgsStream, 11);
    TakeTokensAt(Lexing.New(ArgsInput), |ArgsStream|, ArgsStream, 12);
    TakeTokensAt(Lexing.New(ArgsInput), |ArgsStream|, ArgsStream, 13);
    TakeTokensAt(Lexing.New(ArgsInput), |ArgsStream|, ArgsStream, 14);
  }

  /** The statements of the input of TestArgStatement, in input order. */
  const ArgsStatement0 := ArgStatement(Token(Arg, "ARG"), Ident(Token(Expr, "VERSION=latest")), "VERSION", Some("latest"))
  const ArgsStatement1 := ArgStatement(Token(Arg, "ARG"), Ident(Token(Expr, "BUILDPLATFORM")), "BUILDPLATFORM", None)
  const ArgsStatement2 := ArgStatement(Token(Arg, "ARG"), Ident(Token(Expr, "XX_VERSION")), "XX_VERSION", Some("1.2.1"))

  /** The statement that starts at token 1 of the input of TestArgStatement. */
  lemma ArgsReadAt1(src: Stream)
    requires StreamOk(src)
    requires src.tokens(1) == Done(Token(Arg, "ARG"))
    requires src.tokens(2) == Done(Token(Expr, "VERSION=latest"))
    requires src.tokens(3) == Done(Token(Eol, "\n"))
    requires src.tokens(4) == Done(Token(Eol, "\n"))
    ensures ParseArgStatement(Parser(src, 1, Token(Arg, "ARG"), Token(Expr, "VERSION=latest"), [])) == Done((Some(ArgsStatement0), Parser(src, 3, Token(Eol, "\n"), Token(Eol, "\n"), [])))
  {
    assert ExpectPeek(Parser(src, 1, Token(Arg, "ARG"), Token(Expr, "VERSION=latest"), []), Expr) == Done((true, Parser(src, 2, Token(Expr, "VERSION=latest"), Token(Eol, "\n"), [])));
    CutAtFirst("VERSION=latest", '=', "VERSION", "latest");
    assert ExpectPeekEnd(Parser(src, 2, Token(Expr, "VERSION=latest"), Token(Eol, "\n"), [])) == Done(Parser(src, 3, Token(Eol, "\n"), Token(Eol, "\n"), []));
  }

  /** `parseStatement` at token 1 of the input of TestArgStatement. */
  lemma ArgsStatementAt1(src: Stream)
    requires StreamOk(src)
    requires src.tokens(1) == Done(Token(Arg, "ARG"))
    requires src.tokens(2) == Done(Token(Expr, "VERSION=latest"))
    requires src.tokens(3) == Done(Token(Eol, "\n"))
    requires src.tokens(4) == Done(Token(Eol, "\n"))
    ensures ParseStatement(Parser(src, 1, Token(Arg, "ARG"), Token(Expr, "VERSION=latest"), [])) == Done((Some(Boxed(Arg, Some(ArgsStatement0))), Parser(src, 3, Token(Eol, "\n"), Token(Eol, "\n"), [])))
  {
    ArgsReadAt1(src);
    ArgStep(Parser(src, 1, Token(Arg, "ARG"), Token(Expr, "VERSION=latest"), []), ArgsStatement0, Parser(src, 3, Token(Eol, "\n"), Token(Eol, "\n"), []));
  }

  /** The statement that starts at token 5 of the input of TestArgStatement. */
  lemma ArgsReadAt5(src: Stream)
    requires StreamOk(src)
    requires src.tokens(5) == Done(Token(Arg, "ARG"))
    requires src.tokens(6) == Done(Token(Expr, "BUILDPLATFORM"))
    requires src.tokens(7) == Done(Token(Eol, "\n"))
    requires src.tokens(8) == Done(Token(Eol, "\n"))
    ensures ParseArgStatement(Parser(src, 5, Token(Arg, "ARG"), Token(Expr, "BUILDPLATFORM"), [])) == Done((Some(ArgsStatement1), Parser(src, 7, Token(Eol, "\n"), Token(Eol, "\n"), [])))
  {
    assert ExpectPeek(Parser(src, 5, Token(Arg, "ARG"), Token(Expr, "BUILDPLATFORM"), []), Expr) == Done((true, Parser(src, 6, Token(Expr, "BUILDPLATFORM"), Token(Eol, "\n"), [])));
    assert '=' !in "BUILDPLATFORM";
    assert ExpectPeekEnd(Parser(src, 6, Token(Expr, "BUILDPLATFORM"), Token(Eol, "\n"), [])) == Done(Parser(src, 7, Token(Eol, "\n"), Token(Eol, "\n"), []));
  }

  /** `parseStatement` at token 5 of the input of TestArgStatement. */
  lemma ArgsStatementAt5(src: Stream)
    requires StreamOk(src)
    requires src.tokens(5) == Done(Token(Arg, "ARG"))
    requires src.tokens(6) == Done(Token(Expr, "BUILDPLATFORM"))
    requires src.tokens(7) == Done(Token(Eol, "\n"))
    requires src.tokens(8) == Done(Token(Eol, "\n"))
    ensures ParseStatement(Parser(src, 5, Token(Arg, "ARG"), Token(Expr, "BUILDPLATFORM"), [])) == Done((Some(Boxed(Arg, Some(ArgsStatement1))), Parser(src, 7, Token(Eol, "\n"), Token(Eol, "\n"), [])))
  {
    ArgsReadAt5(src);
    ArgStep(Parser(src, 5, Token(Arg, "ARG"), Token(Expr, "BUILDPLATFORM"), []), ArgsStatement1, Parser(src, 7, Token(Eol, "\n"), Token(Eol, "\n"), []));
  }

  /** The statement that starts at token 9 of the input of TestArgStatement. */
  lemma ArgsReadAt9(src: Stream)
    requires StreamOk(src)
    requires src.tokens(9) == Done(Token(Arg, "ARG"))
    requires src.tokens(10) == Done(Token(Expr, "XX_VERSION"))
    requires src.tokens(11) == Done(Token(Expr, "1.2.1"))
    requires src.tokens(12) == Done(Token(Eof, ""))
    requires src.tokens(13) == Done(Token(Eof, ""))
    ensures ParseArgStatement(Parser(src, 9, Token(Arg, "ARG"), Token(Expr, "XX_VERSION"), [])) == Done((Some(ArgsStatement2), Parser(src, 12, Token(Eof, ""), Token(Eof, ""), [])))
  {
    assert ExpectPeek(Parser(src, 9, Token(Arg, "ARG"), Token(Expr, "XX_VERSION"), []), Expr) == Done((true, Parser(src, 10, Token(Expr, "XX_VERSION"), Token(Expr, "1.2.1"), [])));
    assert '=' !in "XX_VERSION";
    assert NextToken(Parser(src, 10, Token(Expr, "XX_VERSION"), Token(Expr, "1.2.1"), [])) == Done(Parser(src, 11, Token(Expr, "1.2.1"), Token(Eof, ""), []));
    assert ExpectPeekEnd(Parser(src, 11, Token(Expr, "1.2.1"), Token(Eof, ""), [])) == Done(Parser(src, 12, Token(Eof, ""), Token(Eof, ""), []));
  }

  /** `parseStatement` at token 9 of the input of TestArgStatement. */
  lemma ArgsStatementAt9(src: Stream)
    requires StreamOk(src)
    requires src.tokens(9) == Done(Token(Arg, "ARG"))
    requires src.tokens(10) == Done(Token(Expr, "XX_VERSION"))
    requires src.tokens(11) == Done(Token(Expr, "1.2.1"))
    requires src.tokens(12) == Done(Token(Eof, ""))
    requires src.tokens(13) == Done(Token(Eof, ""))
    ensures ParseStatement(Parser(src, 9, Token(Arg, "ARG"), Token(Expr, "XX_VERSION"), [])) == Done((Some(Boxed(Arg, Some(ArgsStatement2))), Parser(src, 12, Token(Eof, ""), Token(Eof, ""), [])))
  {
    ArgsReadAt9(src);
    ArgStep(Parser(src, 9, Token(Arg, "ARG"), Token(Expr, "XX_VERSION"), []), ArgsStatement2, Parser(src, 12, Token(Eof, ""), Token(Eof, ""), []));
  }

  /** One round of the loop over the tokens of TestArgStatement: the line end at token 0 is passed over. */
  lemma ArgsRound0(src: Stream)
    requires StreamOk(src)
    requires src.tokens(0) == Done(Token(Eol, "\n"))
    requires src.tokens(1) == Done(Token(Arg, "ARG"))
    requires src.tokens(2) == Done(Token(Expr, "VERSION=latest"))
    ensures Parsing.Valid(Parser(src, 0, Token(Eol, "\n"), Token(Arg, "ARG"), [])) && Parsing.Valid(Parser(src, 1, Token(Arg, "ARG"), Token(Expr, "VERSION=latest"), []))
    ensures ParseProgramFrom(Parser(src, 0, Token(Eol, "\n"), Token(Arg, "ARG"), []), Program([], [])) == ParseProgramFrom(Parser(src, 1, Token(Arg, "ARG"), Token(Expr, "VERSION=latest"), []), Program([], []))
  {
    LoopStep(Parser(src, 0, Token(Eol, "\n"), Token(Arg, "ARG"), []), Program([], []), None, Parser(src, 0, Token(Eol, "\n"), Token(Arg, "ARG"), []), Parser(src, 1, Token(Arg, "ARG"), Token(Expr, "VERSION=latest"), []), Program([], []));
  }

  /** The statement at token 1 of TestArgStatement joins the statements. */
  lemma ArgsKept1()
    ensures Keep(Program([], []), Some(Boxed(Arg, Some(ArgsStatement0)))) == Program([], [ArgsStatement0])
  {
  }

  /** One round of the loop over the tokens of TestArgStatement: the statement at token 1 is kept, and the loop moves on to token 4. */
  lemma ArgsRound1(src: Stream)
    requires StreamOk(src)
    requires src.tokens(1) == Done(Token(Arg, "ARG"))
    requires src.tokens(2) == Done(Token(Expr, "VERSION=latest"))
    requires src.tokens(3) == Done(Token(Eol, "\n"))
    requires src.tokens(4) == Done(Token(Eol, "\n"))
    requires src.tokens(5) == Done(Token(Arg, "ARG"))
    ensures Parsing.Valid(Parser(src, 1, Token(Arg, "ARG"), Token(Expr, "VERSION=latest"), [])) && Parsing.Valid(Parser(src, 4, Token(Eol, "\n"), Token(Arg, "ARG"), []))
    ensures ParseProgramFrom(Parser(src, 1, Token(Arg, "ARG"), Token(Expr, "VERSION=latest"), []), Program([], [])) == ParseProgramFrom(Parser(src, 4, Token(Eol, "\n"), Token(Arg, "ARG"), []), Program([], [ArgsStatement0]))
  {
    ArgsStatementAt1(src);
    ArgsKept1();
    LoopStep(Parser(src, 1, Token(Arg, "ARG"), Token(Expr, "VERSION=latest"), []), Program([], []), Some(Boxed(Arg, Some(ArgsStatement0))), Parser(src, 3, Token(Eol, "\n"), Token(Eol, "\n"), []), Parser(src, 4, Token(Eol, "\n"), Token(Arg, "ARG"), []), Program([], [ArgsStatement0]));
  }

  /** One round of the loop over the tokens of TestArgStatement: the line end at token 4 is passed over. */
  lemma ArgsRound4(src: Stream)
    requires StreamOk(src)
    requires src.tokens(4) == Done(Token(Eol, "\n"))
    requires src.tokens(5) == Done(Token(Arg, "ARG"))
    requires src.tokens(6) == Done(Token(Expr, "BUILDPLATFORM"))
    ensures Parsing.Valid(Parser(src, 4, Token(Eol, "\n"), Token(Arg, "ARG"), [])) && Parsing.Valid(Parser(src, 5, Token(Arg, "ARG"), Token(Expr, "BUILDPLATFORM"), []))
    ensures ParseProgramFrom(Parser(src, 4, Token(Eol, "\n"), Token(Arg, "ARG"), []), Program([], [ArgsStatement0])) == ParseProgramFrom(Parser(src, 5, Token(Arg, "ARG"), Token(Expr, "BUILDPLATFORM"), []), Program([], [ArgsStatement0]))
  {
    LoopStep(Parser(src, 4, Token(Eol, "\n"), Token(Arg, "ARG"), []), Program([], [ArgsStatement0]), None, Parser(src, 4, Token(Eol, "\n"), Token(Arg, "ARG"), []), Parser(src, 5, Token(Arg, "ARG"), Token(Expr, "BUILDPLATFORM"), []), Program([], [ArgsStatement0]));
  }

  /** The statement at token 5 of TestArgStatement joins the statements. */
  lemma ArgsKept5()
    ensures Keep(Program([], [ArgsStatement0]), Some(Boxed(Arg, Some(ArgsStatement1)))) == Program([], [ArgsStatement0, ArgsStatement1])
  {
  }

  /** One round of the loop over the tokens of TestArgStatement: the statement at token 5 is kept, and the loop moves on to token 8. */
  lemma ArgsRound5(src: Stream)
    requires StreamOk(src)
    requires src.tokens(5) == Done(Token(Arg, "ARG"))
    requires src.tokens(6) == Done(Token(Expr, "BUILDPLATFORM"))
    requires src.tokens(7) == Done(Token(Eol, "\n"))
    requires src.tokens(8) == Done(Token(Eol, "\n"))
    requires src.tokens(9) == Done(Token(Arg, "ARG"))
    ensures Parsing.Valid(Parser(src, 5, Token(Arg, "ARG"), Token(Expr, "BUILDPLATFORM"), [])) && Parsing.Valid(Parser(src, 8, Token(Eol, "\n"), Token(Arg, "ARG"), []))
    ensures ParseProgramFrom(Parser(src, 5, Token(Arg, "ARG"), Token(Expr, "BUILDPLATFORM"), []), Program([], [ArgsStatement0])) == ParseProgramFrom(Parser(src, 8, Token(Eol, "\n"), Token(Arg, "ARG"), []), Program([], [ArgsStatement0, ArgsStatement1]))
  {
    ArgsStatementAt5(src);
    ArgsKept5();
    LoopStep(Parser(src, 5, Token(Arg, "ARG"), Token(Expr, "BUILDPLATFORM"), []), Program([], [ArgsStatement0]), Some(Boxed(Arg, Some(ArgsStatement1))), Parser(src, 7, Token(Eol, "\n"), Token(Eol, "\n"), []), Parser(src, 8, Token(Eol, "\n"), Token(Arg, "ARG"), []), Program([], [ArgsStatement0, ArgsStatement1]));
  }

  /** One round of the loop over the tokens of TestArgStatement: the line end at token 8 is passed over. */
  lemma ArgsRound8(src: Stream)
    requires StreamOk(src)
    requires src.tokens(8) == Done(Token(Eol, "\n"))
    requires src.tokens(9) == Done(Token(Arg, "ARG"))
    requires src.tokens(10) == Done(Token(Expr, "XX_VERSION"))
    ensures Parsing.Valid(Parser(src, 8, Token(Eol, "\n"), Token(Arg, "ARG"), [])) && Parsing.Valid(Parser(src, 9, Token(Arg, "ARG"), Token(Expr, "XX_VERSION"), []))
    ensures ParseProgramFrom(Parser(src, 8, Token(Eol, "\n"), Token(Arg, "ARG"), []), Program([], [ArgsStatement0, ArgsStatement1])) == ParseProgramFrom(Parser(src, 9, Token(Arg, "ARG"), Token(Expr, "XX_VERSION"), []), Program([], [ArgsStatement0, ArgsStatement1]))
  {
    LoopStep(Parser(src, 8, Token(Eol, "\n"), Token(Arg, "ARG"), []), Program([], [ArgsStatement0, ArgsStatement1]), None, Parser(src, 8, Token(Eol, "\n"), Token(Arg, "ARG"), []), Parser(src, 9, Token(Arg, "ARG"), Token(Expr, "XX_VERSION"), []), Program([], [ArgsStatement0, ArgsStatement1]));
  }

  /** The statement at token 9 of TestArgStatement joins the statements. */
  lemma ArgsKept9()
    ensures Keep(Program([], [ArgsStatement0, ArgsStatement1]), Some(Boxed(Arg, Some(ArgsStatement2)))) == Program([], [ArgsStatement0, ArgsStatement1, ArgsStatement2])
  {
  }

  /** One round of the loop over the tokens of TestArgStatement: the statement at token 9 is kept, and the loop moves on to token 13. */
  lemma ArgsRound9(src: Stream)
    requires StreamOk(src)
    requires src.tokens(9) == Done(Token(Arg, "ARG"))
    requires src.tokens(10) == Done(Token(Expr, "XX_VERSION"))
    requires src.tokens(11) == Done(Token(Expr, "1.2.1"))
    requires src.tokens(12) == Done(Token(Eof, ""))
    requires src.tokens(13) == Done(Token(Eof, ""))
    requires src.tokens(14) == Done(Token(Eof, ""))
    ensures Parsing.Valid(Parser(src, 9, Token(Arg, "ARG"), Token(Expr, "XX_VERSION"), [])) && Parsing.Valid(Parser(src, 13, Token(Eof, ""), Token(Eof, ""), []))
    ensures ParseProgramFrom(Parser(src, 9, Token(Arg, "ARG"), Token(Expr, "XX_VERSION"), []), Program([], [ArgsStatement0, ArgsStatement1])) == ParseProgramFrom(Parser(src, 13, Token(Eof, ""), Token(Eof, ""), []), Program([], [ArgsStatement0, ArgsStatement1, ArgsStatement2]))
  {
    ArgsStatementAt9(src);
    ArgsKept9();
    LoopStep(Parser(src, 9, Token(Arg, "ARG"), Token(Expr, "XX_VERSION"), []), Program([], [ArgsStatement0, ArgsStatement1]), Some(Boxed(Arg, Some(ArgsStatement2))), Parser(src, 12, Token(Eof, ""), Token(Eof, ""), []), Parser(src, 13, Token(Eof, ""), Token(Eof, ""), []), Program([], [ArgsStatement0, ArgsStatement1, ArgsStatement2]));
  }

  /** Parsing the tokens of TestArgStatement, from any stream that hands them out. */
  lemma ArgsRun(src: Stream)
    requires StreamOk(src)
    requires src.tokens(0) == Done(Token(Eol, "\n"))
    requires src.tokens(1) == Done(Token(Arg, "ARG"))
    requires src.tokens(2) == Done(Token(Expr, "VERSION=latest"))
    requires src.tokens(3) == Done(Token(Eol, "\n"))
    requires src.tokens(4) == Done(Token(Eol, "\n"))
    requires src.tokens(5) == Done(Token(Arg, "ARG"))
    requires src.tokens(6) == Done(Token(Expr, "BUILDPLATFORM"))
    requires src.tokens(7) == Done(Token(Eol, "\n"))
    requires src.tokens(8) == Done(Token(Eol, "\n"))
    requires src.tokens(9) == Done(Token(Arg, "ARG"))
    requires src.tokens(10) == Done(Token(Expr, "XX_VERSION"))
    requires src.tokens(11) == Done(Token(Expr, "1.2.1"))
    requires src.tokens(12) == Done(Token(Eof, ""))
    requires src.tokens(13) == Done(Token(Eof, ""))
    requires src.tokens(14) == Done(Token(Eof, ""))
    ensures ParseProgram(Parser(src, 0, Token(Eol, "\n"), Token(Arg, "ARG"), [])) == Done((ArgsProgram, Parser(src, 13, Token(Eof, ""), Token(Eof, ""), [])))
  {
    ArgsRound0(src);
    ArgsRound1(src);
    ArgsRound4(src);
    ArgsRound5(src);
    ArgsRound8(src);
    ArgsRound9(src);
    assert ParseProgramFrom(Parser(src, 13, Token(Eof, ""), Token(Eof, ""), []), ArgsProgram) == Done((ArgsProgram, Parser(src, 13, Token(Eof, ""), Token(Eof, ""), [])));
  }

  /** The program TestArgStatement expects, in the model's terms. */
  const ArgsProgram := Program([], [ArgsStatement0, ArgsStatement1, ArgsStatement2])

  /** The input of TestArgStatement lexes and parses, without an error, into the expected program. */
  lemma ArgsParsed()
    ensures Parse(ArgsInput) == Done((ArgsProgram, []))
  {
    ArgsLexed();
    ArgsRun(LexerStream(Lexing.New(ArgsInput)));
  }

  /** TestArgStatement: three `ARG` statements with the names and values the test lists.
      The program is exactly the expected one, and the code as written, which
      keeps failed statements, builds the same program. */
  lemma ArgsTest()
    ensures Parse(ArgsInput).Done?
    ensures var (prog, errors) := Parse(ArgsInput).value;
      && errors == [] && prog == ArgsProgram
      && |prog.statements| == 3
      && StatementLiteral(prog.statements[0]) == "ARG"
      && prog.statements[0].ArgStatement?
      && prog.statements[0].argName == "VERSION"
      && prog.statements[0].argValue == Some("latest")
      && StatementLiteral(prog.statements[1]) == "ARG"
      && prog.statements[1].ArgStatement?
      && prog.statements[1].argName == "BUILDPLATFORM"
      && prog.statements[1].argValue == None
      && StatementLiteral(prog.statements[2]) == "ARG"
      && prog.statements[2].ArgStatement?
      && prog.statements[2].argName == "XX_VERSION"
      && prog.statements[2].argValue == Some("1.2.1")
    ensures ParseAsWritten(ArgsInput) == Done((Boxes(ArgsProgram), []))
  {
    ArgsParsed();
    ParseAsWrittenAgrees(ArgsInput);
  }

  // ---------------------------------------------------------------------------
  // The Go test `TestFromStatements` (dockerfile/parser/parser_test.go:75-126)
  // ---------------------------------------------------------------------------

  /** Line 1 of the input of TestFromStatements. */
  const FromsLine0: seq<Piece> := [Newline(Plain(""))]
  const FromsTokens0: seq<Token> := [Token(Eol, "\n")]

  /** Line 2 of the input of TestFromStatements. */
  const FromsLine1: seq<Piece> := [Word(Plain(""), "FROM"), Word(Plain(" "), "alpine"), Newline(Plain(""))]
  const FromsTokens1: seq<Token> := [Token(From, "FROM"), Token(Expr, "alpine"), Token(Eol, "\n")]

  /** Line 3 of the input of TestFromStatements. */
  const FromsLine2 := FromsLine2a + FromsLine2b
  const FromsTokens2 := FromsTokens2a + FromsTokens2b
  const FromsLine2a: seq<Piece> := [Word(Plain(""), "FROM"), Word(Plain(" "), "docker.io/library/golang:1.23.0"), Word(Plain(" "), "AS")]
  const FromsTokens2a: seq<Token> := [Token(From, "FROM"), Token(Expr, "docker.io/library/golang:1.23.0"), Token(As, "AS")]
  const FromsLine2b: seq<Piece> := [Word(Plain(" "), "builder"), Newline(Plain(""))]
  const FromsTokens2b: seq<Token> := [Token(Expr, "builder"), Token(Eol, "\n")]

  /** Line 4 of the input of TestFromStatements. */
  const FromsLine3 := FromsLine3a + FromsLine3b
  const FromsTokens3 := FromsTokens3a + FromsTokens3b
  const FromsLine3a: seq<Piece> := [Word(Plain(""), "FROM"), Word(Plain(" "), "--platform=$BUILDPLATFORM"), Word(Plain(" "), "tonistiigi/xx:${XX_VERSION}")]
  const FromsTokens3a: seq<Token> := [Token(From, "FROM"), Token(Expr, "--platform=$BUILDPLATFORM"), Token(Expr, "tonistiigi/xx:${XX_VERSION}")]
  const FromsLine3b: seq<Piece> := [Word(Plain(" "), "AS"), Word(Plain(" "), "xx")]
  const FromsTokens3b: seq<Token> := [Token(As, "AS"), Token(Expr, "xx")]

  /** The input of TestFromStatements, line by line, and its tokens. */
  const FromsLines: seq<seq<Piece>> := [FromsLine0, FromsLine1, FromsLine2, FromsLine3]
  const FromsTokenLines: seq<seq<Token>> := [FromsTokens0, FromsTokens1, FromsTokens2, FromsTokens3]
  const FromsInput := Input(Lines(FromsLines))

  /** Every token the parser draws from the input of TestFromStatements, the end-of-input
      tokens after it included. */
  const FromsStream: seq<Token> := [Token(Eol, "\n"), Token(From, "FROM"), Token(Expr, "alpine"), Token(Eol, "\n"), Token(From, "FROM"), Token(Expr, "docker.io/library/golang:1.23.0"), Token(As, "AS"), Token(Expr, "builder"), Token(Eol, "\n"), Token(From, "FROM"), Token(Expr, "--platform=$BUILDPLATFORM"), Token(Expr, "tonistiigi/xx:${XX_VERSION}"), Token(As, "AS"), Token(Expr, "xx"), Token(Eof, ""), Token(Eof, ""), Token(Eof, "")]

  lemma ReadFromsLine0()
    ensures ValidLine(FromsLine0, FromsTokens0)
  {
  }

  lemma ReadFromsLine1()
    ensures ValidLine(FromsLine1, FromsTokens1)
  {
    LexerReplay.Piece8();
    LexerReplay.Piece15();
  }

  /** A piece of the parser test inputs that reads as its token. */
  lemma Piece9()
    ensures ValidPiece(Word(Plain(" "), "docker.io/library/golang:1.23.0")) && TokenOf(Word(Plain(" "), "docker.io/library/golang:1.23.0")) == Token(Expr, "docker.io/library/golang:1.23.0") && EndsWord(Word(Plain(" "), "docker.io/library/golang:1.23.0"))
  {
    PrintableWord(Plain(" "), "docker.io/library/golang:1.23.0");
  }

  lemma ReadFromsLine2a()
    ensures ValidRun(FromsLine2a, FromsTokens2a)
  {
    LexerReplay.Piece8();
    Piece9();
    LexerReplay.Piece11();
  }

  lemma ReadFromsLine2b()
    ensures ValidRun(FromsLine2b, FromsTokens2b)
  {
    LexerReplay.Piece17();
  }

  lemma ReadFromsLine2()
    ensures ValidLine(FromsLine2, FromsTokens2)
  {
    ReadFromsLine2a();
    ReadFromsLine2b();
    RunAppend(FromsLine2a, FromsTokens2a, FromsLine2b, FromsTokens2b);
  }

  lemma ReadFromsLine3a()
    ensures ValidRun(FromsLine3a, FromsTokens3a)
  {
    LexerReplay.Piece8();
    LexerReplay.Piece9();
    LexerReplay.Piece10();
  }

  lemma ReadFromsLine3b()
    ensures ValidRun(FromsLine3b, FromsTokens3b)
  {
    LexerReplay.Piece11();
    LexerReplay.Piece12();
  }

  lemma ReadFromsLine3()
    ensures ValidRun(FromsLine3, FromsTokens3)
  {
    ReadFromsLine3a();
    ReadFromsLine3b();
    RunAppend(FromsLine3a, FromsTokens3a, FromsLine3b, FromsTokens3b);
  }

  /** The tokens of the lines of TestFromStatements, one after another, then the end of input. */
  lemma FromsConcat()
    ensures Concat(FromsTokenLines) + Eofs(3) == FromsStream
  {
    assert Concat(FromsTokenLines) == FromsTokens0 + (FromsTokens1 + (FromsTokens2 + (FromsTokens3 + ([])))) by {
      assert FromsTokenLines[4..] == [];
      ConcatStep(FromsTokenLines, 3);
      ConcatStep(FromsTokenLines, 2);
      ConcatStep(FromsTokenLines, 1);
      ConcatStep(FromsTokenLines, 0);
      assert FromsTokenLines[0..] == FromsTokenLines;
    }
    assert Eofs(3) == [Token(Eof, ""), Token(Eof, ""), Token(Eof, "")] by {
      assert Eofs(1) == [Token(Eof, "")];
      assert Eofs(2) == [Token(Eof, ""), Token(Eof, "")];
    }
  }

  /** The lexer reads the input of TestFromStatements as exactly these tokens. */
  lemma FromsRead()
    ensures Lexing.TakeTokens(Lexing.New(FromsInput), |FromsStream|) == Done(FromsStream)
  {
    ReadFromsLine0();
    ReadFromsLine1();
    ReadFromsLine2();
    ReadFromsLine3();
    OpenLinesFacts(FromsLines, FromsTokenLines);
    FromsConcat();
    ReadAllToEnd(Lines(FromsLines), 3, |FromsStream|, FromsStream);
  }

  /** The lexer reads the input of TestFromStatements as these tokens, then the end of input. */
  lemma FromsLexed()
    ensures var s := LexerStream(Lexing.New(FromsInput));
      && s.tokens(0) == Done(Token(Eol, "\n"))
      && s.tokens(1) == Done(Token(From, "FROM"))
      && s.tokens(2) == Done(Token(Expr, "alpine"))
      && s.tokens(3) == Done(Token(Eol, "\n"))
      && s.tokens(4) == Done(Token(From, "FROM"))
      && s.tokens(5) == Done(Token(Expr, "docker.io/library/golang:1.23.0"))
      && s.tokens(6) == Done(Token(As, "AS"))
      && s.tokens(7) == Done(Token(Expr, "builder"))
      && s.tokens(8) == Done(Token(Eol, "\n"))
      && s.tokens(9) == Done(Token(From, "FROM"))
      && s.tokens(10) == Done(Token(Expr, "--platform=$BUILDPLATFORM"))
      && s.tokens(11) == Done(Token(Expr, "tonistiigi/xx:${XX_VERSION}"))
      && s.tokens(12) == Done(Token(As, "AS"))
      && s.tokens(13) == Done(Token(Expr, "xx"))
      && s.tokens(14) == Done(Token(Eof, ""))
      && s.tokens(15) == Done(Token(Eof, ""))
      && s.tokens(16) == Done(Token(Eof, ""))
  {
    FromsRead();
    TakeTokensAt(Lexing.New(FromsInput), |FromsStream|, FromsStream, 0);
    TakeTokensAt(Lexing.New(FromsInput), |FromsStream|, FromsStream, 1);
    TakeTokensAt(Lexing.New(FromsInput), |FromsStream|, FromsStream, 2);
    TakeTokensAt(Lexing.New(FromsInput), |FromsStream|, FromsStream, 3);
    TakeTokensAt(Lexing.New(FromsInput), |FromsStream|, FromsStream, 4);
    TakeTokensAt(Lexing.New(FromsInput), |FromsStream|, FromsStream, 5);
    TakeTokensAt(Lexing.New(FromsInput), |FromsStream|, FromsStream, 6);
    TakeTokensAt(Lexing.New(FromsInput), |FromsStream|, FromsStream, 7);
    TakeTokensAt(Lexing.New(FromsInput), |FromsStream|, FromsStream, 8);
    TakeTokensAt(Lexing.New(FromsInput), |FromsStream|, FromsStream, 9);
    TakeTokensAt(Lexing.New(FromsInput), |FromsStream|, FromsStream, 10);
    TakeTokensAt(Lexing.New(FromsInput), |FromsStream|, FromsStream, 11);
    TakeTokensAt(Lexing.New(FromsInput), |FromsStream|, FromsStream, 12);
    TakeTokensAt(Lexing.New(FromsInput), |FromsStream|, FromsStream, 13);
    TakeTokensAt(Lexing.New(FromsInput), |FromsStream|, FromsStream, 14);
    TakeTokensAt(Lexing.New(FromsInput), |FromsStream|, FromsStream, 15);
    TakeTokensAt(Lexing.New(FromsInput), |FromsStream|, FromsStream, 16);
  }

  /** The statements of the input of TestFromStatements, in input order. */
  const FromsStatement0 := FromStatement(Token(From, "FROM"), Ident(Token(Expr, "alpine")), None, [])
  const FromsStatement1 := FromStatement(Token(From, "FROM"), Ident(Token(Expr, "docker.io/library/golang:1.23.0")), Some(Ident(Token(Expr, "builder"))), [])
  const FromsStatement2 := FromStatement(Token(From, "FROM"), Ident(Token(Expr, "tonistiigi/xx:${XX_VERSION}")), Some(Ident(Token(Expr, "xx"))), [Argument(Token(Expr, "--platform=$BUILDPLATFORM"), "platform", "$BUILDPLATFORM")])

  /** The `AS` part and the line end after the source at token 2 of TestFromStatements. */
  lemma FromsAliasAt2(src: Stream)
    requires StreamOk(src)
    requires src.tokens(2) == Done(Token(Expr, "alpine"))
    requires src.tokens(3) == Done(Token(Eol, "\n"))
    requires src.tokens(4) == Done(Token(From, "FROM"))
    ensures FromAlias(Parser(src, 2, Token(Expr, "alpine"), Token(Eol, "\n"), [])) == Done((None, Parser(src, 2, Token(Expr, "alpine"), Token(Eol, "\n"), []))) && ExpectPeekEnd(Parser(src, 2, Token(Expr, "alpine"), Token(Eol, "\n"), [])) == Done(Parser(src, 3, Token(Eol, "\n"), Token(From, "FROM"), []))
  {
  }

  /** The statement that starts at token 1 of the input of TestFromStatements. */
  lemma FromsReadAt1(src: Stream)
    requires StreamOk(src)
    requires src.tokens(1) == Done(Token(From, "FROM"))
    requires src.tokens(2) == Done(Token(Expr, "alpine"))
    requires src.tokens(3) == Done(Token(Eol, "\n"))
    requires src.tokens(4) == Done(Token(From, "FROM"))
    ensures ParseFromStatement(Parser(src, 1, Token(From, "FROM"), Token(Expr, "alpine"), [])) == Done((Some(FromsStatement0), Parser(src, 3, Token(Eol, "\n"), Token(From, "FROM"), [])))
  {
    assert ExpectPeek(Parser(src, 1, Token(From, "FROM"), Token(Expr, "alpine"), []), Expr) == Done((true, Parser(src, 2, Token(Expr, "alpine"), Token(Eol, "\n"), [])));
    assert !IsFlag("alpine");
    FromsAliasAt2(src);
  }

  /** `parseStatement` at token 1 of the input of TestFromStatements. */
  lemma FromsStatementAt1(src: Stream)
    requires StreamOk(src)
    requires src.tokens(1) == Done(Token(From, "FROM"))
    requires src.tokens(2) == Done(Token(Expr, "alpine"))
    requires src.tokens(3) == Done(Token(Eol, "\n"))
    requires src.tokens(4) == Done(Token(From, "FROM"))
    ensures ParseStatement(Parser(src, 1, Token(From, "FROM"), Token(Expr, "alpine"), [])) == Done((Some(Boxed(From, Some(FromsStatement0))), Parser(src, 3, Token(Eol, "\n"), Token(From, "FROM"), [])))
  {
    FromsReadAt1(src);
    FromStep(Parser(src, 1, Token(From, "FROM"), Token(Expr, "alpine"), []), FromsStatement0, Parser(src, 3, Token(Eol, "\n"), Token(From, "FROM"), []));
  }

  /** The `AS` part and the line end after the source at token 5 of TestFromStatements. */
  lemma FromsAliasAt5(src: Stream)
    requires StreamOk(src)
    requires src.tokens(5) == Done(Token(Expr, "docker.io/library/golang:1.23.0"))
    requires src.tokens(6) == Done(Token(As, "AS"))
    requires src.tokens(7) == Done(Token(Expr, "builder"))
    requires src.tokens(8) == Done(Token(Eol, "\n"))
    requires src.tokens(9) == Done(Token(From, "FROM"))
    ensures FromAlias(Parser(src, 5, Token(Expr, "docker.io/library/golang:1.23.0"), Token(As, "AS"), [])) == Done((Some(Ident(Token(Expr, "builder"))), Parser(src, 7, Token(Expr, "builder"), Token(Eol, "\n"), []))) && ExpectPeekEnd(Parser(src, 7, Token(Expr, "builder"), Token(Eol, "\n"), [])) == Done(Parser(src, 8, Token(Eol, "\n"), Token(From, "FROM"), []))
  {
  }

  /** The statement that starts at token 4 of the input of TestFromStatements. */
  lemma FromsReadAt4(src: Stream)
    requires StreamOk(src)
    requires src.tokens(4) == Done(Token(From, "FROM"))
    requires src.tokens(5) == Done(Token(Expr, "docker.io/library/golang:1.23.0"))
    requires src.tokens(6) == Done(Token(As, "AS"))
    requires src.tokens(7) == Done(Token(Expr, "builder"))
    requires src.tokens(8) == Done(Token(Eol, "\n"))
    requires src.tokens(9) == Done(Token(From, "FROM"))
    ensures ParseFromStatement(Parser(src, 4, Token(From, "FROM"), Token(Expr, "docker.io/library/golang:1.23.0"), [])) == Done((Some(FromsStatement1), Parser(src, 8, Token(Eol, "\n"), Token(From, "FROM"), [])))
  {
    assert ExpectPeek(Parser(src, 4, Token(From, "FROM"), Token(Expr, "docker.io/library/golang:1.23.0"), []), Expr) == Done((true, Parser(src, 5, Token(Expr, "docker.io/library/golang:1.23.0"), Token(As, "AS"), [])));
    assert !IsFlag("docker.io/library/golang:1.23.0");
    FromsAliasAt5(src);
  }

  /** `parseStatement` at token 4 of the input of TestFromStatements. */
  lemma FromsStatementAt4(src: Stream)
    requires StreamOk(src)
    requires src.tokens(4) == Done(Token(From, "FROM"))
    requires src.tokens(5) == Done(Token(Expr, "docker.io/library/golang:1.23.0"))
    requires src.tokens(6) == Done(Token(As, "AS"))
    requires src.tokens(7) == Done(Token(Expr, "builder"))
    requires src.tokens(8) == Done(Token(Eol, "\n"))
    requires src.tokens(9) == Done(Token(From, "FROM"))
    ensures ParseStatement(Parser(src, 4, Token(From, "FROM"), Token(Expr, "docker.io/library/golang:1.23.0"), [])) == Done((Some(Boxed(From, Some(FromsStatement1))), Parser(src, 8, Token(Eol, "\n"), Token(From, "FROM"), [])))
  {
    FromsReadAt4(src);
    FromStep(Parser(src, 4, Token(From, "FROM"), Token(Expr, "docker.io/library/golang:1.23.0"), []), FromsStatement1, Parser(src, 8, Token(Eol, "\n"), Token(From, "FROM"), []));
  }

  /** How the flag at token 10 of TestFromStatements splits. */
  lemma FromsFlag10()
    ensures IsFlag("--platform=$BUILDPLATFORM") && Cut("--platform=$BUILDPLATFORM"[2..], '=') == ("platform", "$BUILDPLATFORM", true)
  {
    assert "--platform=$BUILDPLATFORM"[2..] == "platform=$BUILDPLATFORM";
    CutAtFirst("platform=$BUILDPLATFORM", '=', "platform", "$BUILDPLATFORM");
  }

  /** The flags read from token 10 of the input of TestFromStatements. */
  lemma FromsFlagsAt10(src: Stream)
    requires StreamOk(src)
    requires src.tokens(10) == Done(Token(Expr, "--platform=$BUILDPLATFORM"))
    requires src.tokens(11) == Done(Token(Expr, "tonistiigi/xx:${XX_VERSION}"))
    requires src.tokens(12) == Done(Token(As, "AS"))
    ensures ParseArguments(Parser(src, 10, Token(Expr, "--platform=$BUILDPLATFORM"), Token(Expr, "tonistiigi/xx:${XX_VERSION}"), [])) == Done(([Argument(Token(Expr, "--platform=$BUILDPLATFORM"), "platform", "$BUILDPLATFORM")], Parser(src, 11, Token(Expr, "tonistiigi/xx:${XX_VERSION}"), Token(As, "AS"), [])))
  {
    FromsFlag10();
    assert !IsFlag("tonistiigi/xx:${XX_VERSION}");
    OneFlag(Parser(src, 10, Token(Expr, "--platform=$BUILDPLATFORM"), Token(Expr, "tonistiigi/xx:${XX_VERSION}"), []), "platform", "$BUILDPLATFORM", Parser(src, 11, Token(Expr, "tonistiigi/xx:${XX_VERSION}"), Token(As, "AS"), []));
  }

  /** The `AS` part and the line end after the source at token 11 of TestFromStatements. */
  lemma FromsAliasAt11(src: Stream)
    requires StreamOk(src)
    requires src.tokens(11) == Done(Token(Expr, "tonistiigi/xx:${XX_VERSION}"))
    requires src.tokens(12) == Done(Token(As, "AS"))
    requires src.tokens(13) == Done(Token(Expr, "xx"))
    requires src.tokens(14) == Done(Token(Eof, ""))
    requires src.tokens(15) == Done(Token(Eof, ""))
    ensures FromAlias(Parser(src, 11, Token(Expr, "tonistiigi/xx:${XX_VERSION}"), Token(As, "AS"), [])) == Done((Some(Ident(Token(Expr, "xx"))), Parser(src, 13, Token(Expr, "xx"), Token(Eof, ""), []))) && ExpectPeekEnd(Parser(src, 13, Token(Expr, "xx"), Token(Eof, ""), [])) == Done(Parser(src, 14, Token(Eof, ""), Token(Eof, ""), []))
  {
  }

  /** The statement that starts at token 9 of the input of TestFromStatements. */
  lemma FromsReadAt9(src: Stream)
    requires StreamOk(src)
    requires src.tokens(9) == Done(Token(From, "FROM"))
    requires src.tokens(10) == Done(Token(Expr, "--platform=$BUILDPLATFORM"))
    requires src.tokens(11) == Done(Token(Expr, "tonistiigi/xx:${XX_VERSION}"))
    requires src.tokens(12) == Done(Token(As, "AS"))
    requires src.tokens(13) == Done(Token(Expr, "xx"))
    requires src.tokens(14) == Done(Token(Eof, ""))
    requires src.tokens(15) == Done(Token(Eof, ""))
    ensures ParseFromStatement(Parser(src, 9, Token(From, "FROM"), Token(Expr, "--platform=$BUILDPLATFORM"), [])) == Done((Some(FromsStatement2), Parser(src, 14, Token(Eof, ""), Token(Eof, ""), [])))
  {
    assert ExpectPeek(Parser(src, 9, Token(From, "FROM"), Token(Expr, "--platform=$BUILDPLATFORM"), []), Expr) == Done((true, Parser(src, 10, Token(Expr, "--platform=$BUILDPLATFORM"), Token(Expr, "tonistiigi/xx:${XX_VERSION}"), [])));
    FromsFlagsAt10(src);
    FromsAliasAt11(src);
  }

  /** `parseStatement` at token 9 of the input of TestFromStatements. */
  lemma FromsStatementAt9(src: Stream)
    requires StreamOk(src)
    requires src.tokens(9) == Done(Token(From, "FROM"))
    requires src.tokens(10) == Done(Token(Expr, "--platform=$BUILDPLATFORM"))
    requires src.tokens(11) == Done(Token(Expr, "tonistiigi/xx:${XX_VERSION}"))
    requires src.tokens(12) == Done(Token(As, "AS"))
    requires src.tokens(13) == Done(Token(Expr, "xx"))
    requires src.tokens(14) == Done(Token(Eof, ""))
    requires src.tokens(15) == Done(Token(Eof, ""))
    ensures ParseStatement(Parser(src, 9, Token(From, "FROM"), Token(Expr, "--platform=$BUILDPLATFORM"), [])) == Done((Some(Boxed(From, Some(FromsStatement2))), Parser(src, 14, Token(Eof, ""), Token(Eof, ""), [])))
  {
    FromsReadAt9(src);
    FromStep(Parser(src, 9, Token(From, "FROM"), Token(Expr, "--platform=$BUILDPLATFORM"), []), FromsStatement2, Parser(src, 14, Token(Eof, ""), Token(Eof, ""), []));
  }

  /** One round of the loop over the tokens of TestFromStatements: the line end at token 0 is passed over. */
  lemma FromsRound0(src: Stream)
    requires StreamOk(src)
    requires src.tokens(0) == Done(Token(Eol, "\n"))
    requires src.tokens(1) == Done(Token(From, "FROM"))
    requires src.tokens(2) == Done(Token(Expr, "alpine"))
    ensures Parsing.Valid(Parser(src, 0, Token(Eol, "\n"), Token(From, "FROM"), [])) && Parsing.Valid(Parser(src, 1, Token(From, "FROM"), Token(Expr, "alpine"), []))
    ensures ParseProgramFrom(Parser(src, 0, Token(Eol, "\n"), Token(From, "FROM"), []), Program([], [])) == ParseProgramFrom(Parser(src, 1, Token(From, "FROM"), Token(Expr, "alpine"), []), Program([], []))
  {
    LoopStep(Parser(src, 0, Token(Eol, "\n"), Token(From, "FROM"), []), Program([], []), None, Parser(src, 0, Token(Eol, "\n"), Token(From, "FROM"), []), Parser(src, 1, Token(From, "FROM"), Token(Expr, "alpine"), []), Program([], []));
  }

  /** The statement at token 1 of TestFromStatements joins the statements. */
  lemma FromsKept1()
    ensures Keep(Program([], []), Some(Boxed(From, Some(FromsStatement0)))) == Program([], [FromsStatement0])
  {
  }

  /** One round of the loop over the tokens of TestFromStatements: the statement at token 1 is kept, and the loop moves on to token 4. */
  lemma FromsRound1(src: Stream)
    requires StreamOk(src)
    requires src.tokens(1) == Done(Token(From, "FROM"))
    requires src.tokens(2) == Done(Token(Expr, "alpine"))
    requires src.tokens(3) == Done(Token(Eol, "\n"))
    requires src.tokens(4) == Done(Token(From, "FROM"))
    requires src.tokens(5) == Done(Token(Expr, "docker.io/library/golang:1.23.0"))
    ensures Parsing.Valid(Parser(src, 1, Token(From, "FROM"), Token(Expr, "alpine"), [])) && Parsing.Valid(Parser(src, 4, Token(From, "FROM"), Token(Expr, "docker.io/library/golang:1.23.0"), []))
    ensures ParseProgramFrom(Parser(src, 1, Token(From, "FROM"), Token(Expr, "alpine"), []), Program([], [])) == ParseProgramFrom(Parser(src, 4, Token(From, "FROM"), Token(Expr, "docker.io/library/golang:1.23.0"), []), Program([], [FromsStatement0]))
  {
    FromsStatementAt1(src);
    FromsKept1();
    LoopStep(Parser(src, 1, Token(From, "FROM"), Token(Expr, "alpine"), []), Program([], []), Some(Boxed(From, Some(FromsStatement0))), Parser(src, 3, Token(Eol, "\n"), Token(From, "FROM"), []), Parser(src, 4, Token(From, "FROM"), Token(Expr, "docker.io/library/golang:1.23.0"), []), Program([], [FromsStatement0]));
  }

  /** The statement at token 4 of TestFromStatements joins the statements. */
  lemma FromsKept4()
    ensures Keep(Program([], [FromsStatement0]), Some(Boxed(From, Some(FromsStatement1)))) == Program([], [FromsStatement0, FromsStatement1])
  {
  }

  /** One round of the loop over the tokens of TestFromStatements: the statement at token 4 is kept, and the loop moves on to token 9. */
  lemma FromsRound4(src: Stream)
    requires StreamOk(src)
    requires src.tokens(4) == Done(Token(From, "FROM"))
    requires src.tokens(5) == Done(Token(Expr, "docker.io/library/golang:1.23.0"))
    requires src.tokens(6) == Done(Token(As, "AS"))
    requires src.tokens(7) == Done(Token(Expr, "builder"))
    requires src.tokens(8) == Done(Token(Eol, "\n"))
    requires src.tokens(9) == Done(Token(From, "FROM"))
    requires src.tokens(10) == Done(Token(Expr, "--platform=$BUILDPLATFORM"))
    ensures Parsing.Valid(Parser(src, 4, Token(From, "FROM"), Token(Expr, "docker.io/library/golang:1.23.0"), [])) && Parsing.Valid(Parser(src, 9, Token(From, "FROM"), Token(Expr, "--platform=$BUILDPLATFORM"), []))
    ensures ParseProgramFrom(Parser(src, 4, Token(From, "FROM"), Token(Expr, "docker.io/library/golang:1.23.0"), []), Program([], [FromsStatement0])) == ParseProgramFrom(Parser(src, 9, Token(From, "FROM"), Token(Expr, "--platform=$BUILDPLATFORM"), []), Program([], [FromsStatement0, FromsStatement1]))
  {
    FromsStatementAt4(src);
    FromsKept4();
    LoopStep(Parser(src, 4, Token(From, "FROM"), Token(Expr, "docker.io/library/golang:1.23.0"), []), Program([], [FromsStatement0]), Some(Boxed(From, Some(FromsStatement1))), Parser(src, 8, Token(Eol, "\n"), Token(From, "FROM"), []), Parser(src, 9, Token(From, "FROM"), Token(Expr, "--platform=$BUILDPLATFORM"), []), Program([], [FromsStatement0, FromsStatement1]));
  }

  /** The statement at token 9 of TestFromStatements joins the statements. */
  lemma FromsKept9()
    ensures Keep(Program([], [FromsStatement0, FromsStatement1]), Some(Boxed(From, Some(FromsStatement2)))) == Program([], [FromsStatement0, FromsStatement1, FromsStatement2])
  {
  }

  /** One round of the loop over the tokens of TestFromStatements: the statement at token 9 is kept, and the loop moves on to token 15. */
  lemma FromsRound9(src: Stream)
    requires StreamOk(src)
    requires src.tokens(9) == Done(Token(From, "FROM"))
    requires src.tokens(10) == Done(Token(Expr, "--platform=$BUILDPLATFORM"))
    requires src.tokens(11) == Done(Token(Expr, "tonistiigi/xx:${XX_VERSION}"))
    requires src.tokens(12) == Done(Token(As, "AS"))
    requires src.tokens(13) == Done(Token(Expr, "xx"))
    requires src.tokens(14) == Done(Token(Eof, ""))
    requires src.tokens(15) == Done(Token(Eof, ""))
    requires src.tokens(16) == Done(Token(Eof, ""))
    ensures Parsing.Valid(Parser(src, 9, Token(From, "FROM"), Token(Expr, "--platform=$BUILDPLATFORM"), [])) && Parsing.Valid(Parser(src, 15, Token(Eof, ""), Token(Eof, ""), []))
    ensures ParseProgramFrom(Parser(src, 9, Token(From, "FROM"), Token(Expr, "--platform=$BUILDPLATFORM"), []), Program([], [FromsStatement0, FromsStatement1])) == ParseProgramFrom(Parser(src, 15, Token(Eof, ""), Token(Eof, ""), []), Program([], [FromsStatement0, FromsStatement1, FromsStatement2]))
  {
    FromsStatementAt9(src);
    FromsKept9();
    LoopStep(Parser(src, 9, Token(From, "FROM"), Token(Expr, "--platform=$BUILDPLATFORM"), []), Program([], [FromsStatement0, FromsStatement1]), Some(Boxed(From, Some(FromsStatement2))), Parser(src, 14, Token(Eof, ""), Token(Eof, ""), []), Parser(src, 15, Token(Eof, ""), Token(Eof, ""), []), Program([], [FromsStatement0, FromsStatement1, FromsStatement2]));
  }

  /** Parsing the tokens of TestFromStatements, from any stream that hands them out. */
  lemma FromsRun(src: Stream)
    requires StreamOk(src)
    requires src.tokens(0) == Done(Token(Eol, "\n"))
    requires src.tokens(1) == Done(Token(From, "FROM"))
    requires src.tokens(2) == Done(Token(Expr, "alpine"))
    requires src.tokens(3) == Done(Token(Eol, "\n"))
    requires src.tokens(4) == Done(Token(From, "FROM"))
    requires src.tokens(5) == Done(Token(Expr, "docker.io/library/golang:1.23.0"))
    requires src.tokens(6) == Done(Token(As, "AS"))
    requires src.tokens(7) == Done(Token(Expr, "builder"))
    requires src.tokens(8) == Done(Token(Eol, "\n"))
    requires src.tokens(9) == Done(Token(From, "FROM"))
    requires src.tokens(10) == Done(Token(Expr, "--platform=$BUILDPLATFORM"))
    requires src.tokens(11) == Done(Token(Expr, "tonistiigi/xx:${XX_VERSION}"))
    requires src.tokens(12) == Done(Token(As, "AS"))
    requires src.tokens(13) == Done(Token(Expr, "xx"))
    requires src.tokens(14) == Done(Token(Eof, ""))
    requires src.tokens(15) == Done(Token(Eof, ""))
    requires src.tokens(16) == Done(Token(Eof, ""))
    ensures ParseProgram(Parser(src, 0, Token(Eol, "\n"), Token(From, "FROM"), [])) == Done((FromsProgram, Parser(src, 15, Token(Eof, ""), Token(Eof, ""), [])))
  {
    FromsRound0(src);
    FromsRound1(src);
    FromsRound4(src);
    FromsRound9(src);
    assert ParseProgramFrom(Parser(src, 15, Token(Eof, ""), Token(Eof, ""), []), FromsProgram) == Done((FromsProgram, Parser(src, 15, Token(Eof, ""), Token(Eof, ""), [])));
  }

  /** The program TestFromStatements expects, in the model's terms. */
  const FromsProgram := Program([], [FromsStatement0, FromsStatement1, FromsStatement2])

  /** The input of TestFromStatements lexes and parses, without an error, into the expected program. */
  lemma FromsParsed()
    ensures Parse(FromsInput) == Done((FromsProgram, []))
  {
    FromsLexed();
    FromsRun(LexerStream(Lexing.New(FromsInput)));
  }

  /** TestFromStatements: three `FROM` statements with the sources, aliases and flags the test lists.
      The program is exactly the expected one, and the code as written, which
      keeps failed statements, builds the same program. */
  lemma FromsTest()
    ensures Parse(FromsInput).Done?
    ensures var (prog, errors) := Parse(FromsInput).value;
      && errors == [] && prog == FromsProgram
      && |prog.statements| == 3
      && StatementLiteral(prog.statements[0]) == "FROM"
      && prog.statements[0].FromStatement?
      && prog.statements[0].source.value == "alpine"
      && IdentifierLiteral(prog.statements[0].source) == "alpine"
      && prog.statements[0].alias.None?
      && prog.statements[0].arguments == []
      && StatementLiteral(prog.statements[1]) == "FROM"
      && prog.statements[1].FromStatement?
      && prog.statements[1].source.value == "docker.io/library/golang:1.23.0"
      && IdentifierLiteral(prog.statements[1].source) == "docker.io/library/golang:1.23.0"
      && prog.statements[1].alias.Some?
      && prog.statements[1].alias.value.value == "builder"
      && IdentifierLiteral(prog.statements[1].alias.value) == "builder"
      && prog.statements[1].arguments == []
      && StatementLiteral(prog.statements[2]) == "FROM"
      && prog.statements[2].FromStatement?
      && prog.statements[2].source.value == "tonistiigi/xx:${XX_VERSION}"
      && IdentifierLiteral(prog.statements[2].source) == "tonistiigi/xx:${XX_VERSION}"
      && prog.statements[2].alias.Some?
      && prog.statements[2].alias.value.value == "xx"
      && IdentifierLiteral(prog.statements[2].alias.value) == "xx"
      && |prog.statements[2].arguments| == 1
      && ArgumentLiteral(prog.statements[2].arguments[0]) == "--platform=$BUILDPLATFORM"
    ensures ParseAsWritten(FromsInput) == Done((Boxes(FromsProgram), []))
  {
    FromsParsed();
    ParseAsWrittenAgrees(FromsInput);
  }

  // ---------------------------------------------------------------------------
  // The Go test `TestCopyStatement` (dockerfile/parser/parser_test.go:128-171)
  // ---------------------------------------------------------------------------

  /** Line 1 of the input of TestCopyStatement. */
  const CopiesLine0: seq<Piece> := [Newline(Plain(""))]
  const CopiesTokens0: seq<Token> := [Token(Eol, "\n")]

  /** Line 2 of the input of TestCopyStatement. */
  const CopiesLine1 := CopiesLine1a + CopiesLine1b
  const CopiesTokens1 := CopiesTokens1a + CopiesTokens1b
  const CopiesLine1a: seq<Piece> := [Word(Plain(""), "COPY"), Word(Plain(" "), "--from=xx"), Word(Plain(" "), "/")]
  const CopiesTokens1a: seq<Token> := [Token(Copy, "COPY"), Token(Expr, "--from=xx"), Token(Expr, "/")]
  const CopiesLine1b: seq<Piece> := [Word(Plain(" "), "/"), Newline(Plain(""))]
  const CopiesTokens1b: seq<Token> := [Token(Expr, "/"), Token(Eol, "\n")]

  /** Line 3 of the input of TestCopyStatement. */
  const CopiesLine2: seq<Piece> := [Word(Plain(""), "COPY"), Word(Plain(" "), "--from=build-base"), Word(Plain(" "), "/etc/ssl/certs/ca\\ certificates.crt"), Word(Plain(" "), "/etc/ssl/certs/")]
  const CopiesTokens2: seq<Token> := [Token(Copy, "COPY"), Token(Expr, "--from=build-base"), Token(Expr, "/etc/ssl/certs/ca\\ certificates.crt"), Token(Expr, "/etc/ssl/certs/")]

  /** The input of TestCopyStatement, line by line, and its tokens. */
  const CopiesLines: seq<seq<Piece>> := [CopiesLine0, CopiesLine1, CopiesLine2]
  const CopiesTokenLines: seq<seq<Token>> := [CopiesTokens0, CopiesTokens1, CopiesTokens2]
  const CopiesInput := Input(Lines(CopiesLines))

  /** Every token the parser draws from the input of TestCopyStatement, the end-of-input
      tokens after it included. */
  const CopiesStream: seq<Token> := [Token(Eol, "\n"), Token(Copy, "COPY"), Token(Expr, "--from=xx"), Token(Expr, "/"), Token(Expr, "/"), Token(Eol, "\n"), Token(Copy, "COPY"), Token(Expr, "--from=build-base"), Token(Expr, "/etc/ssl/certs/ca\\ certificates.crt"), Token(Expr, "/etc/ssl/certs/"), Token(Eof, ""), Token(Eof, ""), Token(Eof, "")]

  lemma ReadCopiesLine0()
    ensures ValidLine(CopiesLine0, CopiesTokens0)
  {
  }

  lemma ReadCopiesLine1a()
    ensures ValidRun(CopiesLine1a, CopiesTokens1a)
  {
    LexerReplay.Piece22();
    LexerReplay.Piece23();
    LexerReplay.Piece24();
  }

  lemma ReadCopiesLine1b()
    ensures ValidRun(CopiesLine1b, CopiesTokens1b)
  {
    LexerReplay.Piece24();
  }

  lemma ReadCopiesLine1()
    ensures ValidLine(CopiesLine1, CopiesTokens1)
  {
    ReadCopiesLine1a();
    ReadCopiesLine1b();
    RunAppend(CopiesLine1a, CopiesTokens1a, CopiesLine1b, CopiesTokens1b);
  }

  lemma ReadCopiesLine2()
    ensures ValidRun(CopiesLine2, CopiesTokens2)
  {
    LexerReplay.Piece22();
    LexerReplay.Piece53();
    LexerReplay.Piece54();
    LexerReplay.Piece55();
  }

  /** The tokens of the lines of TestCopyStatement, one after another, then the end of input. */
  lemma CopiesConcat()
    ensures Concat(CopiesTokenLines) + Eofs(3) == CopiesStream
  {
    assert Concat(CopiesTokenLines) == CopiesTokens0 + (CopiesTokens1 + (CopiesTokens2 + ([]))) by {
      assert CopiesTokenLines[3..] == [];
      ConcatStep(CopiesTokenLines, 2);
      ConcatStep(CopiesTokenLines, 1);
      ConcatStep(CopiesTokenLines, 0);
      assert CopiesTokenLines[0..] == CopiesTokenLines;
    }
    assert Eofs(3) == [Token(Eof, ""), Token(Eof, ""), Token(Eof, "")] by {
      assert Eofs(1) == [Token(Eof, "")];
      assert Eofs(2) == [Token(Eof, ""), Token(Eof, "")];
    }
  }

  /** The lexer reads the input of TestCopyStatement as exactly these tokens. */
  lemma CopiesRead()
    ensures Lexing.TakeTokens(Lexing.New(CopiesInput), |CopiesStream|) == Done(CopiesStream)
  {
    ReadCopiesLine0();
    ReadCopiesLine1();
    ReadCopiesLine2();
    OpenLinesFacts(CopiesLines, CopiesTokenLines);
    CopiesConcat();
    ReadAllToEnd(Lines(CopiesLines), 3, |CopiesStream|, CopiesStream);
  }

  /** The lexer reads the input of TestCopyStatement as these tokens, then the end of input. */
  lemma CopiesLexed()
    ensures var s := LexerStream(Lexing.New(CopiesInput));
      && s.tokens(0) == Done(Token(Eol, "\n"))
      && s.tokens(1) == Done(Token(Copy, "COPY"))
      && s.tokens(2) == Done(Token(Expr, "--from=xx"))
      && s.tokens(3) == Done(Token(Expr, "/"))
      && s.tokens(4) == Done(Token(Expr, "/"))
      && s.tokens(5) == Done(Token(Eol, "\n"))
      && s.tokens(6) == Done(Token(Copy, "COPY"))
      && s.tokens(7) == Done(Token(Expr, "--from=build-base"))
      && s.tokens(8) == Done(Token(Expr, "/etc/ssl/certs/ca\\ certificates.crt"))
      && s.tokens(9) == Done(Token(Expr, "/etc/ssl/certs/"))
      && s.tokens(10) == Done(Token(Eof, ""))
      && s.tokens(11) == Done(Token(Eof, ""))
      && s.tokens(12) == Done(Token(Eof, ""))
  {
    CopiesRead();
    TakeTokensAt(Lexing.New(CopiesInput), |CopiesStream|, CopiesStream, 0);
    TakeTokensAt(Lexing.New(CopiesInput), |CopiesStream|, CopiesStream, 1);
    TakeTokensAt(Lexing.New(CopiesInput), |CopiesStream|, CopiesStream, 2);
    TakeTokensAt(Lexing.New(CopiesInput), |CopiesStream|, CopiesStream, 3);
    TakeTokensAt(Lexing.New(CopiesInput), |CopiesStream|, CopiesStream, 4);
    TakeTokensAt(Lexing.New(CopiesInput), |CopiesStream|, CopiesStream, 5);
    TakeTokensAt(Lexing.New(CopiesInput), |CopiesStream|, CopiesStream, 6);
    TakeTokensAt(Lexing.New(CopiesInput), |CopiesStream|, CopiesStream, 7);
    TakeTokensAt(Lexing.New(CopiesInput), |CopiesStream|, CopiesStream, 8);
    TakeTokensAt(Lexing.New(CopiesInput), |CopiesStream|, CopiesStream, 9);
    TakeTokensAt(Lexing.New(CopiesInput), |CopiesStream|, CopiesStream, 10);
    TakeTokensAt(Lexing.New(CopiesInput), |CopiesStream|, CopiesStream, 11);
    TakeTokensAt(Lexing.New(CopiesInput), |CopiesStream|, CopiesStream, 12);
  }

  /** The statements of the input of TestCopyStatement, in input order. */
  const CopiesStatement0 := CopyStatement(Token(Copy, "COPY"), Ident(Token(Expr, "/")), Ident(Token(Expr, "/")), [Argument(Token(Expr, "--from=xx"), "from", "xx")])
  const CopiesStatement1 := CopyStatement(Token(Copy, "COPY"), Ident(Token(Expr, "/etc/ssl/certs/ca\\ certificates.crt")), Ident(Token(Expr, "/etc/ssl/certs/")), [Argument(Token(Expr, "--from=build-base"), "from", "build-base")])

  /** How the flag at token 2 of TestCopyStatement splits. */
  lemma CopiesFlag2()
    ensures IsFlag("--from=xx") && Cut("--from=xx"[2..], '=') == ("from", "xx", true)
  {
    assert "--from=xx"[2..] == "from=xx";
    CutAtFirst("from=xx", '=', "from", "xx");
  }

  /** The flags read from token 2 of the input of TestCopyStatement. */
  lemma CopiesFlagsAt2(src: Stream)
    requires StreamOk(src)
    requires src.tokens(2) == Done(Token(Expr, "--from=xx"))
    requires src.tokens(3) == Done(Token(Expr, "/"))
    requires src.tokens(4) == Done(Token(Expr, "/"))
    ensures ParseArguments(Parser(src, 2, Token(Expr, "--from=xx"), Token(Expr, "/"), [])) == Done(([Argument(Token(Expr, "--from=xx"), "from", "xx")], Parser(src, 3, Token(Expr, "/"), Token(Expr, "/"), [])))
  {
    CopiesFlag2();
    assert !IsFlag("/");
    OneFlag(Parser(src, 2, Token(Expr, "--from=xx"), Token(Expr, "/"), []), "from", "xx", Parser(src, 3, Token(Expr, "/"), Token(Expr, "/"), []));
  }

  /** The destination after token 3 of TestCopyStatement, and the line end after it. */
  lemma CopiesDestAt3(src: Stream)
    requires StreamOk(src)
    requires src.tokens(3) == Done(Token(Expr, "/"))
    requires src.tokens(4) == Done(Token(Expr, "/"))
    requires src.tokens(5) == Done(Token(Eol, "\n"))
    requires src.tokens(6) == Done(Token(Copy, "COPY"))
    ensures ExpectPeek(Parser(src, 3, Token(Expr, "/"), Token(Expr, "/"), []), Expr) == Done((true, Parser(src, 4, Token(Expr, "/"), Token(Eol, "\n"), []))) && ExpectPeekEnd(Parser(src, 4, Token(Expr, "/"), Token(Eol, "\n"), [])) == Done(Parser(src, 5, Token(Eol, "\n"), Token(Copy, "COPY"), []))
  {
  }

  /** The statement that starts at token 1 of the input of TestCopyStatement. */
  lemma CopiesReadAt1(src: Stream)
    requires StreamOk(src)
    requires src.tokens(1) == Done(Token(Copy, "COPY"))
    requires src.tokens(2) == Done(Token(Expr, "--from=xx"))
    requires src.tokens(3) == Done(Token(Expr, "/"))
    requires src.tokens(4) == Done(Token(Expr, "/"))
    requires src.tokens(5) == Done(Token(Eol, "\n"))
    requires src.tokens(6) == Done(Token(Copy, "COPY"))
    ensures ParseCopyStatement(Parser(src, 1, Token(Copy, "COPY"), Token(Expr, "--from=xx"), [])) == Done((Some(CopiesStatement0), Parser(src, 5, Token(Eol, "\n"), Token(Copy, "COPY"), [])))
  {
    assert ExpectPeek(Parser(src, 1, Token(Copy, "COPY"), Token(Expr, "--from=xx"), []), Expr) == Done((true, Parser(src, 2, Token(Expr, "--from=xx"), Token(Expr, "/"), [])));
    CopiesFlagsAt2(src);
    CopiesDestAt3(src);
  }

  /** `parseStatement` at token 1 of the input of TestCopyStatement. */
  lemma CopiesStatementAt1(src: Stream)
    requires StreamOk(src)
    requires src.tokens(1) == Done(Token(Copy, "COPY"))
    requires src.tokens(2) == Done(Token(Expr, "--from=xx"))
    requires src.tokens(3) == Done(Token(Expr, "/"))
    requires src.tokens(4) == Done(Token(Expr, "/"))
    requires src.tokens(5) == Done(Token(Eol, "\n"))
    requires src.tokens(6) == Done(Token(Copy, "COPY"))
    ensures ParseStatement(Parser(src, 1, Token(Copy, "COPY"), Token(Expr, "--from=xx"), [])) == Done((Some(Boxed(Copy, Some(CopiesStatement0))), Parser(src, 5, Token(Eol, "\n"), Token(Copy, "COPY"), [])))
  {
    CopiesReadAt1(src);
    CopyStep(Parser(src, 1, Token(Copy, "COPY"), Token(Expr, "--from=xx"), []), CopiesStatement0, Parser(src, 5, Token(Eol, "\n"), Token(Copy, "COPY"), []));
  }

  /** How the flag at token 7 of TestCopyStatement splits. */
  lemma CopiesFlag7()
    ensures IsFlag("--from=build-base") && Cut("--from=build-base"[2..], '=') == ("from", "build-base", true)
  {
    assert "--from=build-base"[2..] == "from=build-base";
    CutAtFirst("from=build-base", '=', "from", "build-base");
  }

  /** The flags read from token 7 of the input of TestCopyStatement. */
  lemma CopiesFlagsAt7(src: Stream)
    requires StreamOk(src)
    requires src.tokens(7) == Done(Token(Expr, "--from=build-base"))
    requires src.tokens(8) == Done(Token(Expr, "/etc/ssl/certs/ca\\ certificates.crt"))
    requires src.tokens(9) == Done(Token(Expr, "/etc/ssl/certs/"))
    ensures ParseArguments(Parser(src, 7, Token(Expr, "--from=build-base"), Token(Expr, "/etc/ssl/certs/ca\\ certificates.crt"), [])) == Done(([Argument(Token(Expr, "--from=build-base"), "from", "build-base")], Parser(src, 8, Token(Expr, "/etc/ssl/certs/ca\\ certificates.crt"), Token(Expr, "/etc/ssl/certs/"), [])))
  {
    CopiesFlag7();
    assert !IsFlag("/etc/ssl/certs/ca\\ certificates.crt");
    OneFlag(Parser(src, 7, Token(Expr, "--from=build-base"), Token(Expr, "/etc/ssl/certs/ca\\ certificates.crt"), []), "from", "build-base", Parser(src, 8, Token(Expr, "/etc/ssl/certs/ca\\ certificates.crt"), Token(Expr, "/etc/ssl/certs/"), []));
  }

  /** The destination after token 8 of TestCopyStatement, and the line end after it. */
  lemma CopiesDestAt8(src: Stream)
    requires StreamOk(src)
    requires src.tokens(8) == Done(Token(Expr, "/etc/ssl/certs/ca\\ certificates.crt"))
    requires src.tokens(9) == Done(Token(Expr, "/etc/ssl/certs/"))
    requires src.tokens(10) == Done(Token(Eof, ""))
    requires src.tokens(11) == Done(Token(Eof, ""))
    ensures ExpectPeek(Parser(src, 8, Token(Expr, "/etc/ssl/certs/ca\\ certificates.crt"), Token(Expr, "/etc/ssl/certs/"), []), Expr) == Done((true, Parser(src, 9, Token(Expr, "/etc/ssl/certs/"), Token(Eof, ""), []))) && ExpectPeekEnd(Parser(src, 9, Token(Expr, "/etc/ssl/certs/"), Token(Eof, ""), [])) == Done(Parser(src, 10, Token(Eof, ""), Token(Eof, ""), []))
  {
  }

  /** The statement that starts at token 6 of the input of TestCopyStatement. */
  lemma CopiesReadAt6(src: Stream)
    requires StreamOk(src)
    requires src.tokens(6) == Done(Token(Copy, "COPY"))
    requires src.tokens(7) == Done(Token(Expr, "--from=build-base"))
    requires src.tokens(8) == Done(Token(Expr, "/etc/ssl/certs/ca\\ certificates.crt"))
    requires src.tokens(9) == Done(Token(Expr, "/etc/ssl/certs/"))
    requires src.tokens(10) == Done(Token(Eof, ""))
    requires src.tokens(11) == Done(Token(Eof, ""))
    ensures ParseCopyStatement(Parser(src, 6, Token(Copy, "COPY"), Token(Expr, "--from=build-base"), [])) == Done((Some(CopiesStatement1), Parser(src, 10, Token(Eof, ""), Token(Eof, ""), [])))
  {
    assert ExpectPeek(Parser(src, 6, Token(Copy, "COPY"), Token(Expr, "--from=build-base"), []), Expr) == Done((true, Parser(src, 7, Token(Expr, "--from=build-base"), Token(Expr, "/etc/ssl/certs/ca\\ certificates.crt"), [])));
    CopiesFlagsAt7(src);
    CopiesDestAt8(src);
  }

  /** `parseStatement` at token 6 of the input of TestCopyStatement. */
  lemma CopiesStatementAt6(src: Stream)
    requires StreamOk(src)
    requires src.tokens(6) == Done(Token(Copy, "COPY"))
    requires src.tokens(7) == Done(Token(Expr, "--from=build-base"))
    requires src.tokens(8) == Done(Token(Expr, "/etc/ssl/certs/ca\\ certificates.crt"))
    requires src.tokens(9) == Done(Token(Expr, "/etc/ssl/certs/"))
    requires src.tokens(10) == Done(Token(Eof, ""))
    requires src.tokens(11) == Done(Token(Eof, ""))
    ensures ParseStatement(Parser(src, 6, Token(Copy, "COPY"), Token(Expr, "--from=build-base"), [])) == Done((Some(Boxed(Copy, Some(CopiesStatement1))), Parser(src, 10, Token(Eof, ""), Token(Eof, ""), [])))
  {
    CopiesReadAt6(src);
    CopyStep(Parser(src, 6, Token(Copy, "COPY"), Token(Expr, "--from=build-base"), []), CopiesStatement1, Parser(src, 10, Token(Eof, ""), Token(Eof, ""), []));
  }

  /** One round of the loop over the tokens of TestCopyStatement: the line end at token 0 is passed over. */
  lemma CopiesRound0(src: Stream)
    requires StreamOk(src)
    requires src.tokens(0) == Done(Token(Eol, "\n"))
    requires src.tokens(1) == Done(Token(Copy, "COPY"))
    requires src.tokens(2) == Done(Token(Expr, "--from=xx"))
    ensures Parsing.Valid(Parser(src, 0, Token(Eol, "\n"), Token(Copy, "COPY"), [])) && Parsing.Valid(Parser(src, 1, Token(Copy, "COPY"), Token(Expr, "--from=xx"), []))
    ensures ParseProgramFrom(Parser(src, 0, Token(Eol, "\n"), Token(Copy, "COPY"), []), Program([], [])) == ParseProgramFrom(Parser(src, 1, Token(Copy, "COPY"), Token(Expr, "--from=xx"), []), Program([], []))
  {
    LoopStep(Parser(src, 0, Token(Eol, "\n"), Token(Copy, "COPY"), []), Program([], []), None, Parser(src, 0, Token(Eol, "\n"), Token(Copy, "COPY"), []), Parser(src, 1, Token(Copy, "COPY"), Token(Expr, "--from=xx"), []), Program([], []));
  }

  /** The statement at token 1 of TestCopyStatement joins the statements. */
  lemma CopiesKept1()
    ensures Keep(Program([], []), Some(Boxed(Copy, Some(CopiesStatement0)))) == Program([], [CopiesStatement0])
  {
  }

  /** One round of the loop over the tokens of TestCopyStatement: the statement at token 1 is kept, and the loop moves on to token 6. */
  lemma CopiesRound1(src: Stream)
    requires StreamOk(src)
    requires src.tokens(1) == Done(Token(Copy, "COPY"))
    requires src.tokens(2) == Done(Token(Expr, "--from=xx"))
    requires src.tokens(3) == Done(Token(Expr, "/"))
    requires src.tokens(4) == Done(Token(Expr, "/"))
    requires src.tokens(5) == Done(Token(Eol, "\n"))
    requires src.tokens(6) == Done(Token(Copy, "COPY"))
    requires src.tokens(7) == Done(Token(Expr, "--from=build-base"))
    ensures Parsing.Valid(Parser(src, 1, Token(Copy, "COPY"), Token(Expr, "--from=xx"), [])) && Parsing.Valid(Parser(src, 6, Token(Copy, "COPY"), Token(Expr, "--from=build-base"), []))
    ensures ParseProgramFrom(Parser(src, 1, Token(Copy, "COPY"), Token(Expr, "--from=xx"), []), Program([], [])) == ParseProgramFrom(Parser(src, 6, Token(Copy, "COPY"), Token(Expr, "--from=build-base"), []), Program([], [CopiesStatement0]))
  {
    CopiesStatementAt1(src);
    CopiesKept1();
    LoopStep(Parser(src, 1, Token(Copy, "COPY"), Token(Expr, "--from=xx"), []), Program([], []), Some(Boxed(Copy, Some(CopiesStatement0))), Parser(src, 5, Token(Eol, "\n"), Token(Copy, "COPY"), []), Parser(src, 6, Token(Copy, "COPY"), Token(Expr, "--from=build-base"), []), Program([], [CopiesStatement0]));
  }

  /** The statement at token 6 of TestCopyStatement joins the statements. */
  lemma CopiesKept6()
    ensures Keep(Program([], [CopiesStatement0]), Some(Boxed(Copy, Some(CopiesStatement1)))) == Program([], [CopiesStatement0, CopiesStatement1])
  {
  }

  /** One round of the loop over the tokens of TestCopyStatement: the statement at token 6 is kept, and the loop moves on to token 11. */
  lemma CopiesRound6(src: Stream)
    requires StreamOk(src)
    requires src.tokens(6) == Done(Token(Copy, "COPY"))
    requires src.tokens(7) == Done(Token(Expr, "--from=build-base"))
    requires src.tokens(8) == Done(Token(Expr, "/etc/ssl/certs/ca\\ certificates.crt"))
    requires src.tokens(9) == Done(Token(Expr, "/etc/ssl/certs/"))
    requires src.tokens(10) == Done(Token(Eof, ""))
    requires src.tokens(11) == Done(Token(Eof, ""))
    requires src.tokens(12) == Done(Token(Eof, ""))
    ensures Parsing.Valid(Parser(src, 6, Token(Copy, "COPY"), Token(Expr, "--from=build-base"), [])) && Parsing.Valid(Parser(src, 11, Token(Eof, ""), Token(Eof, ""), []))
    ensures ParseProgramFrom(Parser(src, 6, Token(Copy, "COPY"), Token(Expr, "--from=build-base"), []), Program([], [CopiesStatement0])) == ParseProgramFrom(Parser(src, 11, Token(Eof, ""), Token(Eof, ""), []), Program([], [CopiesStatement0, CopiesStatement1]))
  {
    CopiesStatementAt6(src);
    CopiesKept6();
    LoopStep(Parser(src, 6, Token(Copy, "COPY"), Token(Expr, "--from=build-base"), []), Program([], [CopiesStatement0]), Some(Boxed(Copy, Some(CopiesStatement1))), Parser(src, 10, Token(Eof, ""), Token(Eof, ""), []), Parser(src, 11, Token(Eof, ""), Token(Eof, ""), []), Program([], [CopiesStatement0, CopiesStatement1]));
  }

  /** Parsing the tokens of TestCopyStatement, from any stream that hands them out. */
  lemma CopiesRun(src: Stream)
    requires StreamOk(src)
    requires src.tokens(0) == Done(Token(Eol, "\n"))
    requires src.tokens(1) == Done(Token(Copy, "COPY"))
    requires src.tokens(2) == Done(Token(Expr, "--from=xx"))
    requires src.tokens(3) == Done(Token(Expr, "/"))
    requires src.tokens(4) == Done(Token(Expr, "/"))
    requires src.tokens(5) == Done(Token(Eol, "\n"))
    requires src.tokens(6) == Done(Token(Copy, "COPY"))
    requires src.tokens(7) == Done(Token(Expr, "--from=build-base"))
    requires src.tokens(8) == Done(Token(Expr, "/etc/ssl/certs/ca\\ certificates.crt"))
    requires src.tokens(9) == Done(Token(Expr, "/etc/ssl/certs/"))
    requires src.tokens(10) == Done(Token(Eof, ""))
    requires src.tokens(11) == Done(Token(Eof, ""))
    requires src.tokens(12) == Done(Token(Eof, ""))
    ensures ParseProgram(Parser(src, 0, Token(Eol, "\n"), Token(Copy, "COPY"), [])) == Done((CopiesProgram, Parser(src, 11, Token(Eof, ""), Token(Eof, ""), [])))
  {
    CopiesRound0(src);
    CopiesRound1(src);
    CopiesRound6(src);
    assert ParseProgramFrom(Parser(src, 11, Token(Eof, ""), Token(Eof, ""), []), CopiesProgram) == Done((CopiesProgram, Parser(src, 11, Token(Eof, ""), Token(Eof, ""), [])));
  }

  /** The program TestCopyStatement expects, in the model's terms. */
  const CopiesProgram := Program([], [CopiesStatement0, CopiesStatement1])

  /** The input of TestCopyStatement lexes and parses, without an error, into the expected program. */
  lemma CopiesParsed()
    ensures Parse(CopiesInput) == Done((CopiesProgram, []))
  {
    CopiesLexed();
    CopiesRun(LexerStream(Lexing.New(CopiesInput)));
  }

  /** TestCopyStatement: two `COPY` statements with the sources, destinations and flags the test lists.
      The program is exactly the expected one, and the code as written, which
      keeps failed statements, builds the same program. */
  lemma CopiesTest()
    ensures Parse(CopiesInput).Done?
    ensures var (prog, errors) := Parse(CopiesInput).value;
      && errors == [] && prog == CopiesProgram
      && |prog.statements| == 2
      && StatementLiteral(prog.statements[0]) == "COPY"
      && prog.statements[0].CopyStatement?
      && prog.statements[0].source.value == "/"
      && IdentifierLiteral(prog.statements[0].source) == "/"
      && prog.statements[0].dest.value == "/"
      && IdentifierLiteral(prog.statements[0].dest) == "/"
      && |prog.statements[0].arguments| == 1
      && ArgumentLiteral(prog.statements[0].arguments[0]) == "--from=xx"
      && StatementLiteral(prog.statements[1]) == "COPY"
      && prog.statements[1].CopyStatement?
      && prog.statements[1].source.value == "/etc/ssl/certs/ca\\ certificates.crt"
      && IdentifierLiteral(prog.statements[1].source) == "/etc/ssl/certs/ca\\ certificates.crt"
      && prog.statements[1].dest.value == "/etc/ssl/certs/"
      && IdentifierLiteral(prog.statements[1].dest) == "/etc/ssl/certs/"
      && |prog.statements[1].arguments| == 1
      && ArgumentLiteral(prog.statements[1].arguments[0]) == "--from=build-base"
    ensures ParseAsWritten(CopiesInput) == Done((Boxes(CopiesProgram), []))
  {
    CopiesParsed();
    ParseAsWrittenAgrees(CopiesInput);
  }

}
