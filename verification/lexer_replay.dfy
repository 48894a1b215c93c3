/** The Go lexer test (dockerfile/lexer/lexer_test.go): its input written as a
    script, one line of pieces per input line, and the proof that the lexer
    reads it as the tokens the test lists, in order. A quoted body longer than
    forty characters is written as the concatenation of two parts, so that no
    single piece lemma has to evaluate a long literal. */
module LexerReplay {
  import opened Outcomes
  import opened Tokens
  import opened Lexing
  import opened Scripts

  /** Line 1 of the test input, and the tokens the test expects from it. */
  const Line0: seq<Piece> := [Newline(Plain(""))]
  const Tokens0: seq<Token> := [Token(Eol, "\n")]

  /** Line 2 of the test input, and the tokens the test expects from it. */
  const Line1: seq<Piece> := [Mark(Plain(""), '#'), Word(Plain(" "), "syntax=docker/dockerfile:1"), Newline(Plain(""))]
  const Tokens1: seq<Token> := [Token(Comment, "#"), Token(Expr, "syntax=docker/dockerfile:1"), Token(Eol, "\n")]

  /** Line 3 of the test input, and the tokens the test expects from it. */
  const Line2: seq<Piece> := [Mark(Plain(""), '#'), Word(Plain(" "), "check=error=true"), Newline(Plain(""))]
  const Tokens2: seq<Token> := [Token(Comment, "#"), Token(Expr, "check=error=true"), Token(Eol, "\n")]

  /** Line 4 of the test input, and the tokens the test expects from it. */
  const Line3: seq<Piece> := [Newline(Plain(""))]
  const Tokens3: seq<Token> := [Token(Eol, "\n")]

  /** Line 5 of the test input, and the tokens the test expects from it. */
  const Line4 := Line4a + Line4b
  const Tokens4 := Tokens4a + Tokens4b
  const Line4a: seq<Piece> := [Word(Plain(""), "FROM"), Word(Plain(" "), "--platform=$BUILDPLATFORM"), Word(Plain(" "), "tonistiigi/xx:${XX_VERSION}")]
  const Tokens4a: seq<Token> := [Token(From, "FROM"), Token(Expr, "--platform=$BUILDPLATFORM"), Token(Expr, "tonistiigi/xx:${XX_VERSION}")]
  const Line4b: seq<Piece> := [Word(Plain(" "), "AS"), Word(Plain(" "), "xx"), Newline(Plain(""))]
  const Tokens4b: seq<Token> := [Token(As, "AS"), Token(Expr, "xx"), Token(Eol, "\n")]

  /** Line 6 of the test input, and the tokens the test expects from it. */
  const Line5 := Line5a + Line5b
  const Tokens5 := Tokens5a + Tokens5b
  const Line5a: seq<Piece> := [Word(Plain(""), "FROM"), Word(Plain(" "), "alpine"), Word(Plain(" "), "AS")]
  const Tokens5a: seq<Token> := [Token(From, "FROM"), Token(Expr, "alpine"), Token(As, "AS")]
  const Line5b: seq<Piece> := [Word(Plain(" "), "builder"), Newline(Plain(""))]
  const Tokens5b: seq<Token> := [Token(Expr, "builder"), Token(Eol, "\n")]

  /** Line 7 of the test input, and the tokens the test expects from it. */
  const Line6: seq<Piece> := [Word(Plain(""), "ENV"), Word(Plain(" "), "GOPRIVATE=github.com/eunomie"), Newline(Plain(""))]
  const Tokens6: seq<Token> := [Token(Env, "ENV"), Token(Expr, "GOPRIVATE=github.com/eunomie"), Token(Eol, "\n")]

  /** Line 8 of the test input, and the tokens the test expects from it. */
  const Line7 := Line7a + Line7b
  const Tokens7 := Tokens7a + Tokens7b
  const Line7a: seq<Piece> := [Word(Plain(""), "COPY"), Word(Plain(" "), "--from=xx"), Word(Plain(" "), "/")]
  const Tokens7a: seq<Token> := [Token(Copy, "COPY"), Token(Expr, "--from=xx"), Token(Expr, "/")]
  const Line7b: seq<Piece> := [Word(Plain(" "), "/"), Newline(Plain(""))]
  const Tokens7b: seq<Token> := [Token(Expr, "/"), Token(Eol, "\n")]

  /** Line 9 of the test input, and the tokens the test expects from it. */
  const Line8 := Line8a + Line8b
  const Tokens8 := Tokens8a + Tokens8b
  const Line8a: seq<Piece> := [Word(Plain(""), "RUN"), Word(Plain(" "), "apk"), Word(Plain(" "), "add")]
  const Tokens8a: seq<Token> := [Token(Run, "RUN"), Token(Expr, "apk"), Token(Expr, "add")]
  const Line8b: seq<Piece> := [Word(Plain(" "), "--no-cache"), Word(Plain(" "), "curl"), Newline(Plain(""))]
  const Tokens8b: seq<Token> := [Token(Expr, "--no-cache"), Token(Expr, "curl"), Token(Eol, "\n")]

  /** Line 10 of the test input, and the tokens the test expects from it. */
  const Line9 := Line9a + Line9b + Line9c
  const Tokens9 := Tokens9a + Tokens9b + Tokens9c
  const Line9a: seq<Piece> := [Word(Plain(""), "RUN"), Word(Plain(" "), "sh"), Word(Plain(" "), "-c")]
  const Tokens9a: seq<Token> := [Token(Run, "RUN"), Token(Expr, "sh"), Token(Expr, "-c")]
  const Line9b: seq<Piece> := [Quoted(Plain(" "), '"', "$(curl --location https:/" + "/taskfile.dev/install.sh)"), Word(Plain(" "), "--"), Word(Plain(" "), "-d")]
  const Tokens9b: seq<Token> := [Token(Str, "$(curl --location https:/" + "/taskfile.dev/install.sh)"), Token(Expr, "--"), Token(Expr, "-d")]
  const Line9c: seq<Piece> := [Word(Plain(" "), "-b"), Word(Plain(" "), "/usr/local/bin"), Newline(Plain(""))]
  const Tokens9c: seq<Token> := [Token(Expr, "-b"), Token(Expr, "/usr/local/bin"), Token(Eol, "\n")]

  /** Line 11 of the test input, and the tokens the test expects from it. */
  const Line10 := Line10a + Line10b + Line10c
  const Tokens10 := Tokens10a + Tokens10b + Tokens10c
  const Line10a: seq<Piece> := [Word(Plain(""), "RUN"), Word(Plain(" "), "--mount=type=cache,target=/root/.cache"), Word(Continued(" ", "    "), "--mount=type=cache,target=/go/pkg/mod")]
  const Tokens10a: seq<Token> := [Token(Run, "RUN"), Token(Expr, "--mount=type=cache,target=/root/.cache"), Token(Expr, "--mount=type=cache,target=/go/pkg/mod")]
  const Line10b: seq<Piece> := [Word(Continued(" ", "    "), "task"), Word(Plain(" "), "go:build"), Word(Plain(" "), "&&")]
  const Tokens10b: seq<Token> := [Token(Expr, "task"), Token(Expr, "go:build"), Token(Expr, "&&")]
  const Line10c: seq<Piece> := [Word(Plain(" "), "xx-verify"), Word(Plain(" "), "dist/scout-notifications-service"), Newline(Plain(""))]
  const Tokens10c: seq<Token> := [Token(Expr, "xx-verify"), Token(Expr, "dist/scout-notifications-service"), Token(Eol, "\n")]

  /** Line 12 of the test input, and the tokens the test expects from it. */
  const Line11: seq<Piece> := [Newline(Plain(""))]
  const Tokens11: seq<Token> := [Token(Eol, "\n")]

  /** Line 13 of the test input, and the tokens the test expects from it. */
  const Line12 := Line12a + Line12b
  const Tokens12 := Tokens12a + Tokens12b
  const Line12a: seq<Piece> := [Word(Plain(""), "COPY"), Word(Plain(" "), "--from=build-base"), Word(Plain(" "), "/etc/ssl/certs/ca\\ certificates.crt")]
  const Tokens12a: seq<Token> := [Token(Copy, "COPY"), Token(Expr, "--from=build-base"), Token(Expr, "/etc/ssl/certs/ca\\ certificates.crt")]
  const Line12b: seq<Piece> := [Word(Plain(" "), "/etc/ssl/certs/"), Newline(Plain(""))]
  const Tokens12b: seq<Token> := [Token(Expr, "/etc/ssl/certs/"), Token(Eol, "\n")]

  /** Line 14 of the test input, and the tokens the test expects from it. */
  const Line13: seq<Piece> := [Newline(Plain(""))]
  const Tokens13: seq<Token> := [Token(Eol, "\n")]

  /** Line 15 of the test input, and the tokens the test expects from it. */
  const Line14: seq<Piece> := [Word(Plain(""), "EXPOSE"), Word(Plain(" "), "8080"), Newline(Plain(""))]
  const Tokens14: seq<Token> := [Token(Expose, "EXPOSE"), Token(Expr, "8080"), Token(Eol, "\n")]

  /** Line 16 of the test input, and the tokens the test expects from it. */
  const Line15 := Line15a + Line15b
  const Tokens15 := Tokens15a + Tokens15b
  const Line15a: seq<Piece> := [Word(Plain(""), "ENTRYPOINT"), Mark(Plain(" "), '['), Quoted(Plain(""), '"', "/usr/local/bin/scout-" + "notifications-service")]
  const Tokens15a: seq<Token> := [Token(Entrypoint, "ENTRYPOINT"), Token(LBracket, "["), Token(Str, "/usr/local/bin/scout-" + "notifications-service")]
  const Line15b: seq<Piece> := [Mark(Plain(""), ']'), Newline(Plain(""))]
  const Tokens15b: seq<Token> := [Token(RBracket, "]"), Token(Eol, "\n")]

  /** Line 17 of the test input, and the tokens the test expects from it. */
  const Line16: seq<Piece> := [Newline(Plain(""))]
  const Tokens16: seq<Token> := [Token(Eol, "\n")]

  /** Line 18 of the test input, and the tokens the test expects from it. */
  const Line17 := Line17a + Line17b
  const Tokens17 := Tokens17a + Tokens17b
  const Line17a: seq<Piece> := [Word(Plain(""), "CMD"), Mark(Plain(" "), '['), Quoted(Plain(""), '"', "echo"), Mark(Plain(""), ',')]
  const Tokens17a: seq<Token> := [Token(Cmd, "CMD"), Token(LBracket, "["), Token(Str, "echo"), Token(Comma, ",")]
  const Line17b: seq<Piece> := [Quoted(Plain(" "), '"', "Hello, World!"), Mark(Plain(""), ']'), Newline(Plain(""))]
  const Tokens17b: seq<Token> := [Token(Str, "Hello, World!"), Token(RBracket, "]"), Token(Eol, "\n")]

  /** The test input, line by line. */
  const TestLines: seq<seq<Piece>> := [Line0, Line1, Line2, Line3, Line4, Line5, Line6, Line7, Line8, Line9, Line10, Line11, Line12, Line13, Line14, Line15, Line16, Line17]

  /** The tokens the test expects, line by line. */
  const TestTokenLines: seq<seq<Token>> := [Tokens0, Tokens1, Tokens2, Tokens3, Tokens4, Tokens5, Tokens6, Tokens7, Tokens8, Tokens9, Tokens10, Tokens11, Tokens12, Tokens13, Tokens14, Tokens15, Tokens16, Tokens17]

  /** The lexer test input. */
  const TestInput := Input(Lines(TestLines))

  /** The tokens the test expects, in order. */
  const TestTokens := Concat(TestTokenLines)

  /** Piece 2 of the test input, counted from 0, reads as its token. */
  lemma Piece2()
    ensures ValidPiece(Word(Plain(" "), "syntax=docker/dockerfile:1")) && TokenOf(Word(Plain(" "), "syntax=docker/dockerfile:1")) == Token(Expr, "syntax=docker/dockerfile:1") && EndsWord(Word(Plain(" "), "syntax=docker/dockerfile:1"))
  {
    PrintableWord(Plain(" "), "syntax=docker/dockerfile:1");
  }

  /** Piece 5 of the test input, counted from 0, reads as its token. */
  lemma Piece5()
    ensures ValidPiece(Word(Plain(" "), "check=error=true")) && TokenOf(Word(Plain(" "), "check=error=true")) == Token(Expr, "check=error=true") && EndsWord(Word(Plain(" "), "check=error=true"))
  {
    PrintableWord(Plain(" "), "check=error=true");
  }

  /** Piece 8 of the test input, counted from 0, reads as its token. */
  lemma Piece8()
    ensures ValidPiece(Word(Plain(""), "FROM")) && TokenOf(Word(Plain(""), "FROM")) == Token(From, "FROM")
  {
    PrintableWord(Plain(""), "FROM");
  }

  /** Piece 9 of the test input, counted from 0, reads as its token. */
  lemma Piece9()
    ensures ValidPiece(Word(Plain(" "), "--platform=$BUILDPLATFORM")) && TokenOf(Word(Plain(" "), "--platform=$BUILDPLATFORM")) == Token(Expr, "--platform=$BUILDPLATFORM") && EndsWord(Word(Plain(" "), "--platform=$BUILDPLATFORM"))
  {
    PrintableWord(Plain(" "), "--platform=$BUILDPLATFORM");
  }

  /** Piece 10 of the test input, counted from 0, reads as its token. */
  lemma Piece10()
    ensures ValidPiece(Word(Plain(" "), "tonistiigi/xx:${XX_VERSION}")) && TokenOf(Word(Plain(" "), "tonistiigi/xx:${XX_VERSION}")) == Token(Expr, "tonistiigi/xx:${XX_VERSION}") && EndsWord(Word(Plain(" "), "tonistiigi/xx:${XX_VERSION}"))
  {
    PrintableWord(Plain(" "), "tonistiigi/xx:${XX_VERSION}");
  }

  /** Piece 11 of the test input, counted from 0, reads as its token. */
  lemma Piece11()
    ensures ValidPiece(Word(Plain(" "), "AS")) && TokenOf(Word(Plain(" "), "AS")) == Token(As, "AS") && EndsWord(Word(Plain(" "), "AS"))
  {
    PrintableWord(Plain(" "), "AS");
  }

  /** Piece 12 of the test input, counted from 0, reads as its token. */
  lemma Piece12()
    ensures ValidPiece(Word(Plain(" "), "xx")) && TokenOf(Word(Plain(" "), "xx")) == Token(Expr, "xx") && EndsWord(Word(Plain(" "), "xx"))
  {
    PrintableWord(Plain(" "), "xx");
  }

  /** Piece 14 of the test input, counted from 0, reads as its token. */
  lemma Piece14()
    ensures ValidPiece(Word(Plain(""), "FROM")) && TokenOf(Word(Plain(""), "FROM")) == Token(From, "FROM")
  {
    PrintableWord(Plain(""), "FROM");
  }

  /** Piece 15 of the test input, counted from 0, reads as its token. */
  lemma Piece15()
    ensures ValidPiece(Word(Plain(" "), "alpine")) && TokenOf(Word(Plain(" "), "alpine")) == Token(Expr, "alpine") && EndsWord(Word(Plain(" "), "alpine"))
  {
    PrintableWord(Plain(" "), "alpine");
  }

  /** Piece 16 of the test input, counted from 0, reads as its token. */
  lemma Piece16()
    ensures ValidPiece(Word(Plain(" "), "AS")) && TokenOf(Word(Plain(" "), "AS")) == Token(As, "AS") && EndsWord(Word(Plain(" "), "AS"))
  {
    PrintableWord(Plain(" "), "AS");
  }

  /** Piece 17 of the test input, counted from 0, reads as its token. */
  lemma Piece17()
    ensures ValidPiece(Word(Plain(" "), "builder")) && TokenOf(Word(Plain(" "), "builder")) == Token(Expr, "builder") && EndsWord(Word(Plain(" "), "builder"))
  {
    PrintableWord(Plain(" "), "builder");
  }

  /** Piece 19 of the test input, counted from 0, reads as its token. */
  lemma Piece19()
    ensures ValidPiece(Word(Plain(""), "ENV")) && TokenOf(Word(Plain(""), "ENV")) == Token(Env, "ENV")
  {
    PrintableWord(Plain(""), "ENV");
  }

  /** Piece 20 of the test input, counted from 0, reads as its token. */
  lemma Piece20()
    ensures ValidPiece(Word(Plain(" "), "GOPRIVATE=github.com/eunomie")) && TokenOf(Word(Plain(" "), "GOPRIVATE=github.com/eunomie")) == Token(Expr, "GOPRIVATE=github.com/eunomie") && EndsWord(Word(Plain(" "), "GOPRIVATE=github.com/eunomie"))
  {
    PrintableWord(Plain(" "), "GOPRIVATE=github.com/eunomie");
  }

  /** Piece 22 of the test input, counted from 0, reads as its token. */
  lemma Piece22()
    ensures ValidPiece(Word(Plain(""), "COPY")) && TokenOf(Word(Plain(""), "COPY")) == Token(Copy, "COPY")
  {
    PrintableWord(Plain(""), "COPY");
  }

  /** Piece 23 of the test input, counted from 0, reads as its token. */
  lemma Piece23()
    ensures ValidPiece(Word(Plain(" "), "--from=xx")) && TokenOf(Word(Plain(" "), "--from=xx")) == Token(Expr, "--from=xx") && EndsWord(Word(Plain(" "), "--from=xx"))
  {
    PrintableWord(Plain(" "), "--from=xx");
  }

  /** Piece 24 of the test input, counted from 0, reads as its token. */
  lemma Piece24()
    ensures ValidPiece(Word(Plain(" "), "/")) && TokenOf(Word(Plain(" "), "/")) == Token(Expr, "/") && EndsWord(Word(Plain(" "), "/"))
  {
    PrintableWord(Plain(" "), "/");
  }

  /** Piece 25 of the test input, counted from 0, reads as its token. */
  lemma Piece25()
    ensures ValidPiece(Word(Plain(" "), "/")) && TokenOf(Word(Plain(" "), "/")) == Token(Expr, "/") && EndsWord(Word(Plain(" "), "/"))
  {
    PrintableWord(Plain(" "), "/");
  }

  /** Piece 27 of the test input, counted from 0, reads as its token. */
  lemma Piece27()
    ensures ValidPiece(Word(Plain(""), "RUN")) && TokenOf(Word(Plain(""), "RUN")) == Token(Run, "RUN")
  {
    PrintableWord(Plain(""), "RUN");
  }

  /** Piece 28 of the test input, counted from 0, reads as its token. */
  lemma Piece28()
    ensures ValidPiece(Word(Plain(" "), "apk")) && TokenOf(Word(Plain(" "), "apk")) == Token(Expr, "apk") && EndsWord(Word(Plain(" "), "apk"))
  {
    PrintableWord(Plain(" "), "apk");
  }

  /** Piece 29 of the test input, counted from 0, reads as its token. */
  lemma Piece29()
    ensures ValidPiece(Word(Plain(" "), "add")) && TokenOf(Word(Plain(" "), "add")) == Token(Expr, "add") && EndsWord(Word(Plain(" "), "add"))
  {
    PrintableWord(Plain(" "), "add");
  }

  /** Piece 30 of the test input, counted from 0, reads as its token. */
  lemma Piece30()
    ensures ValidPiece(Word(Plain(" "), "--no-cache")) && TokenOf(Word(Plain(" "), "--no-cache")) == Token(Expr, "--no-cache") && EndsWord(Word(Plain(" "), "--no-cache"))
  {
    PrintableWord(Plain(" "), "--no-cache");
  }

  /** Piece 31 of the test input, counted from 0, reads as its token. */
  lemma Piece31()
    ensures ValidPiece(Word(Plain(" "), "curl")) && TokenOf(Word(Plain(" "), "curl")) == Token(Expr, "curl") && EndsWord(Word(Plain(" "), "curl"))
  {
    PrintableWord(Plain(" "), "curl");
  }

  /** Piece 33 of the test input, counted from 0, reads as its token. */
  lemma Piece33()
    ensures ValidPiece(Word(Plain(""), "RUN")) && TokenOf(Word(Plain(""), "RUN")) == Token(Run, "RUN")
  {
    PrintableWord(Plain(""), "RUN");
  }

  /** Piece 34 of the test input, counted from 0, reads as its token. */
  lemma Piece34()
    ensures ValidPiece(Word(Plain(" "), "sh")) && TokenOf(Word(Plain(" "), "sh")) == Token(Expr, "sh") && EndsWord(Word(Plain(" "), "sh"))
  {
    PrintableWord(Plain(" "), "sh");
  }

  /** Piece 35 of the test input, counted from 0, reads as its token. */
  lemma Piece35()
    ensures ValidPiece(Word(Plain(" "), "-c")) && TokenOf(Word(Plain(" "), "-c")) == Token(Expr, "-c") && EndsWord(Word(Plain(" "), "-c"))
  {
    PrintableWord(Plain(" "), "-c");
  }

  /** Piece 36 of the test input, counted from 0, reads as its token. */
  lemma Piece36()
    ensures ValidPiece(Quoted(Plain(" "), '"', "$(curl --location https:/" + "/taskfile.dev/install.sh)")) && TokenOf(Quoted(Plain(" "), '"', "$(curl --location https:/" + "/taskfile.dev/install.sh)")) == Token(Str, "$(curl --location https:/" + "/taskfile.dev/install.sh)") && EndsWord(Quoted(Plain(" "), '"', "$(curl --location https:/" + "/taskfile.dev/install.sh)"))
  {
    QuotedHalves(Plain(" "), '"', "$(curl --location https:/", "/taskfile.dev/install.sh)");
  }

  /** Piece 37 of the test input, counted from 0, reads as its token. */
  lemma Piece37()
    ensures ValidPiece(Word(Plain(" "), "--")) && TokenOf(Word(Plain(" "), "--")) == Token(Expr, "--") && EndsWord(Word(Plain(" "), "--"))
  {
    PrintableWord(Plain(" "), "--");
  }

  /** Piece 38 of the test input, counted from 0, reads as its token. */
  lemma Piece38()
    ensures ValidPiece(Word(Plain(" "), "-d")) && TokenOf(Word(Plain(" "), "-d")) == Token(Expr, "-d") && EndsWord(Word(Plain(" "), "-d"))
  {
    PrintableWord(Plain(" "), "-d");
  }

  /** Piece 39 of the test input, counted from 0, reads as its token. */
  lemma Piece39()
    ensures ValidPiece(Word(Plain(" "), "-b")) && TokenOf(Word(Plain(" "), "-b")) == Token(Expr, "-b") && EndsWord(Word(Plain(" "), "-b"))
  {
    PrintableWord(Plain(" "), "-b");
  }

  /** Piece 40 of the test input, counted from 0, reads as its token. */
  lemma Piece40()
    ensures ValidPiece(Word(Plain(" "), "/usr/local/bin")) && TokenOf(Word(Plain(" "), "/usr/local/bin")) == Token(Expr, "/usr/local/bin") && EndsWord(Word(Plain(" "), "/usr/local/bin"))
  {
    PrintableWord(Plain(" "), "/usr/local/bin");
  }

  /** Piece 42 of the test input, counted from 0, reads as its token. */
  lemma Piece42()
    ensures ValidPiece(Word(Plain(""), "RUN")) && TokenOf(Word(Plain(""), "RUN")) == Token(Run, "RUN")
  {
    PrintableWord(Plain(""), "RUN");
  }

  /** Piece 43 of the test input, counted from 0, reads as its token. */
  lemma Piece43()
    ensures ValidPiece(Word(Plain(" "), "--mount=type=cache,target=/root/.cache")) && TokenOf(Word(Plain(" "), "--mount=type=cache,target=/root/.cache")) == Token(Expr, "--mount=type=cache,target=/root/.cache") && EndsWord(Word(Plain(" "), "--mount=type=cache,target=/root/.cache"))
  {
    PrintableWord(Plain(" "), "--mount=type=cache,target=/root/.cache");
  }

  /** Piece 44 of the test input, counted from 0, reads as its token. */
  lemma Piece44()
    ensures ValidPiece(Word(Continued(" ", "    "), "--mount=type=cache,target=/go/pkg/mod")) && TokenOf(Word(Continued(" ", "    "), "--mount=type=cache,target=/go/pkg/mod")) == Token(Expr, "--mount=type=cache,target=/go/pkg/mod") && EndsWord(Word(Continued(" ", "    "), "--mount=type=cache,target=/go/pkg/mod"))
  {
    PrintableWord(Continued(" ", "    "), "--mount=type=cache,target=/go/pkg/mod");
  }

  /** Piece 45 of the test input, counted from 0, reads as its token. */
  lemma Piece45()
    ensures ValidPiece(Word(Continued(" ", "    "), "task")) && TokenOf(Word(Continued(" ", "    "), "task")) == Token(Expr, "task") && EndsWord(Word(Continued(" ", "    "), "task"))
  {
    PrintableWord(Continued(" ", "    "), "task");
  }

  /** Piece 46 of the test input, counted from 0, reads as its token. */
  lemma Piece46()
    ensures ValidPiece(Word(Plain(" "), "go:build")) && TokenOf(Word(Plain(" "), "go:build")) == Token(Expr, "go:build") && EndsWord(Word(Plain(" "), "go:build"))
  {
    PrintableWord(Plain(" "), "go:build");
  }

  /** Piece 47 of the test input, counted from 0, reads as its token. */
  lemma Piece47()
    ensures ValidPiece(Word(Plain(" "), "&&")) && TokenOf(Word(Plain(" "), "&&")) == Token(Expr, "&&") && EndsWord(Word(Plain(" "), "&&"))
  {
    PrintableWord(Plain(" "), "&&");
  }

  /** Piece 48 of the test input, counted from 0, reads as its token. */
  lemma Piece48()
    ensures ValidPiece(Word(Plain(" "), "xx-verify")) && TokenOf(Word(Plain(" "), "xx-verify")) == Token(Expr, "xx-verify") && EndsWord(Word(Plain(" "), "xx-verify"))
  {
    PrintableWord(Plain(" "), "xx-verify");
  }

  /** Piece 49 of the test input, counted from 0, reads as its token. */
  lemma Piece49()
    ensures ValidPiece(Word(Plain(" "), "dist/scout-notifications-service")) && TokenOf(Word(Plain(" "), "dist/scout-notifications-service")) == Token(Expr, "dist/scout-notifications-service") && EndsWord(Word(Plain(" "), "dist/scout-notifications-service"))
  {
    PrintableWord(Plain(" "), "dist/scout-notifications-service");
  }

  /** Piece 52 of the test input, counted from 0, reads as its token. */
  lemma Piece52()
    ensures ValidPiece(Word(Plain(""), "COPY")) && TokenOf(Word(Plain(""), "COPY")) == Token(Copy, "COPY")
  {
    PrintableWord(Plain(""), "COPY");
  }

  /** Piece 53 of the test input, counted from 0, reads as its token. */
  lemma Piece53()
    ensures ValidPiece(Word(Plain(" "), "--from=build-base")) && TokenOf(Word(Plain(" "), "--from=build-base")) == Token(Expr, "--from=build-base") && EndsWord(Word(Plain(" "), "--from=build-base"))
  {
    PrintableWord(Plain(" "), "--from=build-base");
  }

  /** Piece 54 of the test input, counted from 0, reads as its token. */
  lemma Piece54()
    ensures ValidPiece(Word(Plain(" "), "/etc/ssl/certs/ca\\ certificates.crt")) && TokenOf(Word(Plain(" "), "/etc/ssl/certs/ca\\ certificates.crt")) == Token(Expr, "/etc/ssl/certs/ca\\ certificates.crt") && EndsWord(Word(Plain(" "), "/etc/ssl/certs/ca\\ certificates.crt"))
  {
    EscapedSpaceWord("/etc/ssl/certs/ca", "certificates.crt");
    assert "/etc/ssl/certs/ca" + "\\ " + "certificates.crt" == "/etc/ssl/certs/ca\\ certificates.crt";
  }

  /** Piece 55 of the test input, counted from 0, reads as its token. */
  lemma Piece55()
    ensures ValidPiece(Word(Plain(" "), "/etc/ssl/certs/")) && TokenOf(Word(Plain(" "), "/etc/ssl/certs/")) == Token(Expr, "/etc/ssl/certs/") && EndsWord(Word(Plain(" "), "/etc/ssl/certs/"))
  {
    PrintableWord(Plain(" "), "/etc/ssl/certs/");
  }

  /** Piece 58 of the test input, counted from 0, reads as its token. */
  lemma Piece58()
    ensures ValidPiece(Word(Plain(""), "EXPOSE")) && TokenOf(Word(Plain(""), "EXPOSE")) == Token(Expose, "EXPOSE")
  {
    PrintableWord(Plain(""), "EXPOSE");
  }

  /** Piece 59 of the test input, counted from 0, reads as its token. */
  lemma Piece59()
    ensures ValidPiece(Word(Plain(" "), "8080")) && TokenOf(Word(Plain(" "), "8080")) == Token(Expr, "8080") && EndsWord(Word(Plain(" "), "8080"))
  {
    PrintableWord(Plain(" "), "8080");
  }

  /** Piece 61 of the test input, counted from 0, reads as its token. */
  lemma Piece61()
    ensures ValidPiece(Word(Plain(""), "ENTRYPOINT")) && TokenOf(Word(Plain(""), "ENTRYPOINT")) == Token(Entrypoint, "ENTRYPOINT")
  {
    PrintableWord(Plain(""), "ENTRYPOINT");
  }

  /** Piece 63 of the test input, counted from 0, reads as its token. */
  lemma Piece63()
    ensures ValidPiece(Quoted(Plain(""), '"', "/usr/local/bin/scout-" + "notifications-service")) && TokenOf(Quoted(Plain(""), '"', "/usr/local/bin/scout-" + "notifications-service")) == Token(Str, "/usr/local/bin/scout-" + "notifications-service")
  {
    QuotedHalves(Plain(""), '"', "/usr/local/bin/scout-", "notifications-service");
  }

  /** Piece 67 of the test input, counted from 0, reads as its token. */
  lemma Piece67()
    ensures ValidPiece(Word(Plain(""), "CMD")) && TokenOf(Word(Plain(""), "CMD")) == Token(Cmd, "CMD")
  {
    PrintableWord(Plain(""), "CMD");
  }

  /** Piece 69 of the test input, counted from 0, reads as its token. */
  lemma Piece69()
    ensures ValidPiece(Quoted(Plain(""), '"', "echo")) && TokenOf(Quoted(Plain(""), '"', "echo")) == Token(Str, "echo")
  {
    QuotedPiece(Plain(""), '"', "echo");
  }

  /** Piece 71 of the test input, counted from 0, reads as its token. */
  lemma Piece71()
    ensures ValidPiece(Quoted(Plain(" "), '"', "Hello, World!")) && TokenOf(Quoted(Plain(" "), '"', "Hello, World!")) == Token(Str, "Hello, World!") && EndsWord(Quoted(Plain(" "), '"', "Hello, World!"))
  {
    QuotedPiece(Plain(" "), '"', "Hello, World!");
  }

  lemma ReadLine0()
    ensures ValidLine(Line0, Tokens0)
  {
  }

  lemma ReadLine1()
    ensures ValidLine(Line1, Tokens1)
  {
    Piece2();
  }

  lemma ReadLine2()
    ensures ValidLine(Line2, Tokens2)
  {
    Piece5();
  }

  lemma ReadLine3()
    ensures ValidLine(Line3, Tokens3)
  {
  }

  lemma ReadLine4a()
    ensures ValidRun(Line4a, Tokens4a)
  {
    Piece8();
    Piece9();
    Piece10();
  }

  lemma ReadLine4b()
    ensures ValidRun(Line4b, Tokens4b)
  {
    Piece11();
    Piece12();
  }

  lemma ReadLine4()
    ensures ValidLine(Line4, Tokens4)
  {
    ReadLine4a();
    ReadLine4b();
    RunAppend(Line4a, Tokens4a, Line4b, Tokens4b);
  }

  lemma ReadLine5a()
    ensures ValidRun(Line5a, Tokens5a)
  {
    Piece14();
    Piece15();
    Piece16();
  }

  lemma ReadLine5b()
    ensures ValidRun(Line5b, Tokens5b)
  {
    Piece17();
  }

  lemma ReadLine5()
    ensures ValidLine(Line5, Tokens5)
  {
    ReadLine5a();
    ReadLine5b();
    RunAppend(Line5a, Tokens5a, Line5b, Tokens5b);
  }

  lemma ReadLine6()
    ensures ValidLine(Line6, Tokens6)
  {
    Piece19();
    Piece20();
  }

  lemma ReadLine7a()
    ensures ValidRun(Line7a, Tokens7a)
  {
    Piece22();
    Piece23();
    Piece24();
  }

  lemma ReadLine7b()
    ensures ValidRun(Line7b, Tokens7b)
  {
    Piece25();
  }

  lemma ReadLine7()
    ensures ValidLine(Line7, Tokens7)
  {
    ReadLine7a();
    ReadLine7b();
    RunAppend(Line7a, Tokens7a, Line7b, Tokens7b);
  }

  lemma ReadLine8a()
    ensures ValidRun(Line8a, Tokens8a)
  {
    Piece27();
    Piece28();
    Piece29();
  }

  lemma ReadLine8b()
    ensures ValidRun(Line8b, Tokens8b)
  {
    Piece30();
    Piece31();
  }

  lemma ReadLine8()
    ensures ValidLine(Line8, Tokens8)
  {
    ReadLine8a();
    ReadLine8b();
    RunAppend(Line8a, Tokens8a, Line8b, Tokens8b);
  }

  lemma ReadLine9a()
    ensures ValidRun(Line9a, Tokens9a)
  {
    Piece33();
    Piece34();
    Piece35();
  }

  lemma ReadLine9b()
    ensures ValidRun(Line9b, Tokens9b)
  {
    Piece36();
    Piece37();
    Piece38();
  }

  lemma ReadLine9c()
    ensures ValidRun(Line9c, Tokens9c)
  {
    Piece39();
    Piece40();
  }

  lemma ReadLine9()
    ensures ValidLine(Line9, Tokens9)
  {
    ReadLine9a();
    ReadLine9b();
    ReadLine9c();
    RunAppend(Line9a, Tokens9a, Line9b, Tokens9b);
    RunAppend(Line9a + Line9b, Tokens9a + Tokens9b, Line9c, Tokens9c);
  }

  lemma ReadLine10a()
    ensures ValidRun(Line10a, Tokens10a)
  {
    Piece42();
    Piece43();
    Piece44();
  }

  lemma ReadLine10b()
    ensures ValidRun(Line10b, Tokens10b)
  {
    Piece45();
    Piece46();
    Piece47();
  }

  lemma ReadLine10c()
    ensures ValidRun(Line10c, Tokens10c)
  {
    Piece48();
    Piece49();
  }

  lemma ReadLine10()
    ensures ValidLine(Line10, Tokens10)
  {
    ReadLine10a();
    ReadLine10b();
    ReadLine10c();
    RunAppend(Line10a, Tokens10a, Line10b, Tokens10b);
    RunAppend(Line10a + Line10b, Tokens10a + Tokens10b, Line10c, Tokens10c);
  }

  lemma ReadLine11()
    ensures ValidLine(Line11, Tokens11)
  {
  }

  lemma ReadLine12a()
    ensures ValidRun(Line12a, Tokens12a)
  {
    Piece52();
    Piece53();
    Piece54();
  }

  lemma ReadLine12b()
    ensures ValidRun(Line12b, Tokens12b)
  {
    Piece55();
  }

  lemma ReadLine12()
    ensures ValidLine(Line12, Tokens12)
  {
    ReadLine12a();
    ReadLine12b();
    RunAppend(Line12a, Tokens12a, Line12b, Tokens12b);
  }

  lemma ReadLine13()
    ensures ValidLine(Line13, Tokens13)
  {
  }

  lemma ReadLine14()
    ensures ValidLine(Line14, Tokens14)
  {
    Piece58();
    Piece59();
  }

  lemma ReadLine15a()
    ensures ValidRun(Line15a, Tokens15a)
  {
    Piece61();
    Piece63();
  }

  lemma ReadLine15b()
    ensures ValidRun(Line15b, Tokens15b)
  {
  }

  lemma ReadLine15()
    ensures ValidLine(Line15, Tokens15)
  {
    ReadLine15a();
    ReadLine15b();
    RunAppend(Line15a, Tokens15a, Line15b, Tokens15b);
  }

  lemma ReadLine16()
    ensures ValidLine(Line16, Tokens16)
  {
  }

  lemma ReadLine17a()
    ensures ValidRun(Line17a, Tokens17a)
  {
    Piece67();
    Piece69();
  }

  lemma ReadLine17b()
    ensures ValidRun(Line17b, Tokens17b)
  {
    Piece71();
  }

  lemma ReadLine17()
    ensures ValidLine(Line17, Tokens17)
  {
    ReadLine17a();
    ReadLine17b();
    RunAppend(Line17a, Tokens17a, Line17b, Tokens17b);
  }

  /** The Go lexer test: reading the test input yields exactly the listed
      tokens, in order. */
  lemma LexerTest()
    ensures TakeTokens(New(TestInput), |TestTokens|) == Done(TestTokens)
  {
    ReadLine0();
    ReadLine1();
    ReadLine2();
    ReadLine3();
    ReadLine4();
    ReadLine5();
    ReadLine6();
    ReadLine7();
    ReadLine8();
    ReadLine9();
    ReadLine10();
    ReadLine11();
    ReadLine12();
    ReadLine13();
    ReadLine14();
    ReadLine15();
    ReadLine16();
    ReadLine17();
    LinesFacts(TestLines, TestTokenLines);
    ReadAll(Lines(TestLines));
  }
}
