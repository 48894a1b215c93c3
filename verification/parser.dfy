/** The recursive-descent parser: statements are recognised by their leading
    token and read with one token of lookahead; every mismatch is recorded as an
    error and parsing carries on. */
module Parsing {
  import opened Outcomes
  import opened Tokens
  import opened Ast
  import Lexing

  // ---------------------------------------------------------------------------
  // The token stream
  // ---------------------------------------------------------------------------

  /** The lexer after `i` calls of `NextToken`. */
  function StateAt(l: Lexing.Lexer, i: nat): (r: Halting<Lexing.Lexer>)
    ensures r.Done? ==> r.value.input == l.input && l.pos + i <= r.value.pos
    decreases i
  {
    if i == 0 then Done(l)
    else
      var s :- StateAt(l, i - 1);
      var step :- Lexing.NextToken(s);
      Done(step.next)
  }

  /** The token returned by the `i`-th call (counting from 0) of `NextToken` on `l`.
      The lexer is a function of its state, so this is what the Go parser receives
      from its `i`-th call; it diverges when one of the first `i + 1` calls does. */
  function TokenAt(l: Lexing.Lexer, i: nat): (r: Halting<Token>)
    ensures r.Done? ==> WellSpelled(r.value) && r.value.kind != Illegal
    ensures r.Done? && r.value.kind != Eof ==> l.pos + i < |l.input|
  {
    var s :- StateAt(l, i);
    var step :- Lexing.NextToken(s);
    Lexing.NextTokenSpelled(s);
    Done(step.tok)
  }

  /** Counting calls from the lexer one call later shifts the count by one. */
  lemma {:induction false} StateAtShift(l: Lexing.Lexer, i: nat)
    ensures Lexing.NextToken(l).Diverges? ==> StateAt(l, i + 1).Diverges?
    ensures Lexing.NextToken(l).Done? ==> StateAt(l, i + 1) == StateAt(Lexing.NextToken(l).value.next, i)
    decreases i
  {
    if i > 0 {
      StateAtShift(l, i - 1);
    }
  }

  /** Counting tokens from the lexer one call later shifts the count by one. */
  lemma TokenAtShift(l: Lexing.Lexer, i: nat)
    requires Lexing.NextToken(l).Done?
    ensures TokenAt(l, i + 1) == TokenAt(Lexing.NextToken(l).value.next, i)
  {
    StateAtShift(l, i);
  }

  /** The tokens the lexer hands out one by one are those `TakeTokens` collects. */
  lemma {:induction false} TakeTokensAt(l: Lexing.Lexer, n: nat, ts: seq<Token>, i: nat)
    requires Lexing.TakeTokens(l, n) == Done(ts) && i < n
    ensures TokenAt(l, i) == Done(ts[i])
    decreases i
  {
    TakeTokensFirst(l, n, ts);
    var step := Lexing.NextToken(l).value;
    if i == 0 {
      TokenAtFirst(l);
    } else {
      TakeTokensAt(step.next, n - 1, ts[1..], i - 1);
      TokenAtShift(l, i - 1);
    }
  }

  /** `TakeTokens` opens with the first call's token and continues from its lexer. */
  lemma TakeTokensFirst(l: Lexing.Lexer, n: nat, ts: seq<Token>)
    requires Lexing.TakeTokens(l, n) == Done(ts) && 0 < n
    ensures Lexing.NextToken(l).Done? && ts[0] == Lexing.NextToken(l).value.tok
    ensures Lexing.TakeTokens(Lexing.NextToken(l).value.next, n - 1) == Done(ts[1..])
  {
    var step := Lexing.NextToken(l).value;
    var rest := Lexing.TakeTokens(step.next, n - 1).value;
    assert ts == [step.tok] + rest;
  }

  /** The token of call 0 is the token of the first call. */
  lemma TokenAtFirst(l: Lexing.Lexer)
    requires Lexing.NextToken(l).Done?
    ensures TokenAt(l, 0) == Done(Lexing.NextToken(l).value.tok)
  {
    assert StateAt(l, 0) == Done(l);
  }

  // ---------------------------------------------------------------------------
  // Parser state
  // ---------------------------------------------------------------------------

  /** A recorded error: the category that was required and the one found. */
  datatype ParseError = ParseError(want: Kind, got: Kind)

  /** The error text the Go parser stores for an error. */
  function Message(e: ParseError): string {
    "expected next token to be " + Spelling(e.want) + ", got " + Spelling(e.got) + " instead"
  }

  /** The tokens a parser draws, by call number, and a count past which every
      token is the end of input. */
  datatype Stream = Stream(tokens: nat -> Halting<Token>, bound: nat)

  /** What the parser relies on of its tokens: each is spelled as its category
      implies, and only the first `bound` may be anything but the end of input. */
  ghost predicate StreamOk(s: Stream) {
    forall i: nat :: s.tokens(i).Done? ==>
      WellSpelled(s.tokens(i).value) && (s.tokens(i).value.kind != Eof ==> i < s.bound)
  }

  /** The stream a lexer hands out: the token of each call, and the input length. */
  function LexerStream(l: Lexing.Lexer): (s: Stream)
    ensures StreamOk(s)
    ensures forall i: nat :: s.tokens(i) == TokenAt(l, i)
  {
    Stream((i: nat) => TokenAt(l, i), |l.input|)
  }

  /** The parser: its token stream, the number of the current token in it, the
      current token and the one after it, and the errors so far. */
  datatype Parser = Parser(src: Stream, at: nat, cur: Token, peek: Token, errors: seq<ParseError>)

  /** The current and lookahead tokens are those numbered `at` and `at + 1`. */
  ghost predicate Valid(p: Parser) {
    StreamOk(p.src) && p.src.tokens(p.at) == Done(p.cur) && p.src.tokens(p.at + 1) == Done(p.peek)
  }

  /** How many more tokens the parser can take before it surely sits on the end of
      input; the loops of the parser terminate because each step lowers it. */
  function Budget(p: Parser): nat {
    if p.at <= p.src.bound then p.src.bound - p.at else 0
  }

  /** `q` is `p` moved on by one token, the new lookahead read from the stream. */
  ghost predicate Advanced(p: Parser, q: Parser) {
    && q.src == p.src && q.at == p.at + 1 && q.cur == p.peek && q.errors == p.errors
    && p.src.tokens(p.at + 2) == Done(q.peek)
  }

  /** `q` lies at or after `p` on the same stream and has kept all its errors. */
  ghost predicate Follows(p: Parser, q: Parser) {
    q.src == p.src && p.at <= q.at && p.errors <= q.errors
  }

  /** `p` with one more error: the category `want` was required, the lookahead was found. */
  function PeekError(p: Parser, want: Kind): (q: Parser)
    ensures Valid(p) ==> Valid(q)
    ensures q.(errors := p.errors) == p && |q.errors| == |p.errors| + 1 && p.errors <= q.errors
    ensures Message(q.errors[|p.errors|]) == "expected next token to be " + Spelling(want) + ", got " + Spelling(p.peek.kind) + " instead"
  {
    p.(errors := p.errors + [ParseError(want, p.peek.kind)])
  }

  /** Go's `nextToken`: the lookahead becomes current and a new lookahead is read. */
  function NextToken(p: Parser): (r: Halting<Parser>)
    ensures r.Done? ==> Advanced(p, r.value)
    ensures r.Done? && Valid(p) ==> Valid(r.value)
    ensures r.Done? && Valid(p) && p.cur.kind != Eof ==> Budget(r.value) < Budget(p)
  {
    var t :- p.src.tokens(p.at + 2);
    Done(p.(at := p.at + 1, cur := p.peek, peek := t))
  }

  /** Go's `New`: reads two tokens, so that both the current and the lookahead token are set. */
  function New(l: Lexing.Lexer): (r: Halting<Parser>)
    ensures r.Done? ==> Valid(r.value) && r.value.src == LexerStream(l) && r.value.at == 0 && r.value.errors == []
    ensures r.Done? <==> TokenAt(l, 0).Done? && TokenAt(l, 1).Done?
  {
    var src := LexerStream(l);
    var first :- src.tokens(0);
    var second :- src.tokens(1);
    Done(Parser(src, 0, first, second, []))
  }

  /** Go's `expectPeek`: on a lookahead of the wanted category it moves on by
      exactly one token and answers true; otherwise it records exactly one error,
      stays where it is and answers false. */
  function ExpectPeek(p: Parser, want: Kind): (r: Halting<(bool, Parser)>)
    ensures p.peek.kind != want ==> r == Done((false, PeekError(p, want)))
    ensures r.Done? ==> (r.value.0 <==> p.peek.kind == want)
    ensures r.Done? && r.value.0 ==> Advanced(p, r.value.1)
    ensures r.Done? ==> Follows(p, r.value.1) && (Valid(p) ==> Valid(r.value.1))
  {
    if p.peek.kind == want then
      var q :- NextToken(p);
      Done((true, q))
    else
      Done((false, PeekError(p, want)))
  }

  /** The categories that may end a statement. */
  predicate Ends(k: Kind) {
    k == Eol || k == Eof
  }

  /** The errors the end-of-statement check records when the lookahead has category
      `k`: none at the end of a line or of the input, one `EOL` error otherwise. */
  function EndError(k: Kind): seq<ParseError> {
    if Ends(k) then [] else [ParseError(Eol, k)]
  }

  /** Go's `expectPeekEnd`: a statement must be followed by the end of its line or of
      the input. If it is, the parser moves onto that token; if not, one error is
      recorded and the parser stays put. */
  function ExpectPeekEnd(p: Parser): (r: Halting<Parser>)
    ensures !Ends(p.peek.kind) ==> r == Done(PeekError(p, Eol))
    ensures r.Done? && Ends(p.peek.kind) ==> Advanced(p, r.value)
    ensures r.Done? ==> Follows(p, r.value) && r.value.errors == p.errors + EndError(p.peek.kind) && (Valid(p) ==> Valid(r.value))
  {
    if !Ends(p.peek.kind) then
      Done(PeekError(p, Eol))
    else
      NextToken(p)
  }

  // ---------------------------------------------------------------------------
  // Strings
  // ---------------------------------------------------------------------------

  /** Go's `strings.HasPrefix(s, "--")`. */
  predicate IsFlag(s: string) {
    2 <= |s| && s[0] == '-' && s[1] == '-'
  }

  /** Go's `strings.Cut(s, sep)` for a one-character separator: the text before and
      after the first `sep`, and whether there was one at all. */
  function Cut(s: string, sep: char): (r: (string, string, bool))
    ensures r.2 <==> sep in s
    ensures r.2 ==> s == r.0 + [sep] + r.1 && sep !in r.0
    ensures !r.2 ==> r.0 == s && r.1 == ""
  {
    if s == [] then ("", "", false)
    else if s[0] == sep then ("", s[1..], true)
    else
      var (before, after, found) := Cut(s[1..], sep);
      ([s[0]] + before, after, found)
  }

  /** `Cut` splits at the first separator: any split whose front holds no separator
      is the one `Cut` returns, so the part after it may hold more separators. */
  lemma {:induction false} CutAtFirst(s: string, sep: char, before: string, after: string)
    requires s == before + [sep] + after && sep !in before
    ensures Cut(s, sep) == (before, after, true)
    decreases before
  {
    if before != [] {
      assert s[0] == before[0] != sep;
      assert s[1..] == before[1..] + [sep] + after;
      CutAtFirst(s[1..], sep, before[1..], after);
      assert [s[0]] + before[1..] == before;
    }
  }

  // ---------------------------------------------------------------------------
  // Flags
  // ---------------------------------------------------------------------------

  /** A flag that `parseArguments` reads into an argument: `--` and a name, then `=`. */
  predicate GoodFlag(s: string) {
    IsFlag(s) && '=' in s[2..]
  }

  /** Token `k` of the stream is a flag read into an argument: a well-formed flag
      followed by a word. */
  ghost predicate FlagWithWord(src: Stream, k: nat) {
    && src.tokens(k).Done? && GoodFlag(src.tokens(k).value.literal)
    && src.tokens(k + 1).Done? && src.tokens(k + 1).value.kind == Expr
  }

  /** Reading flags from `p` stops at `q`, the first token on that is not a
      well-formed flag followed by a word. */
  ghost predicate FlagsPassed(p: Parser, q: Parser) {
    && p.at <= q.at
    && (forall k | p.at <= k < q.at :: FlagWithWord(p.src, k))
    && !(GoodFlag(q.cur.literal) && q.peek.kind == Expr)
  }

  /** `args` is `acc` followed by one well-formed argument for each token from `p`
      to `q`, read from that token. */
  ghost predicate Collected(p: Parser, acc: seq<Argument>, args: seq<Argument>, q: Parser) {
    && p.at <= q.at && |args| == |acc| + (q.at - p.at) && args[..|acc|] == acc
    && forall i | |acc| <= i < |args| ::
         WellFormedArgument(args[i]) && p.src.tokens(p.at + i - |acc|) == Done(args[i].token)
  }

  /** How reading flags from `p`, with `acc` already collected, may end in `q` with
      the slice `args`. In every case it stops at the first token that is not a
      well-formed flag followed by a word, and then
      - that token is no flag: every flag passed was read into an argument, and no
        error was recorded;
      - that token is a flag without `=`: the arguments are dropped and that flag
        stays the current token;
      - that token is a flag not followed by a word: the arguments are dropped and
        one error is recorded. */
  ghost predicate FlagsRead(p: Parser, acc: seq<Argument>, args: seq<Argument>, q: Parser) {
    && FlagsPassed(p, q)
    && (|| (&& q.errors == p.errors && !IsFlag(q.cur.literal) && Collected(p, acc, args, q))
        || (&& args == [] && q.errors == p.errors
            && IsFlag(q.cur.literal) && '=' !in q.cur.literal[2..])
        || (&& args == [] && q.errors == p.errors + [ParseError(Expr, q.peek.kind)]
            && GoodFlag(q.cur.literal) && q.peek.kind != Expr))
  }

  /** The loop of Go's `parseArguments`, with `acc` the arguments collected so far. */
  function ParseArgumentsFrom(p: Parser, acc: seq<Argument>): (r: Halting<(seq<Argument>, Parser)>)
    requires Valid(p)
    ensures r.Done? ==> Follows(p, r.value.1) && Valid(r.value.1)
    ensures r.Done? ==> FlagsRead(p, acc, r.value.0, r.value.1)
    ensures r.Done? && p.cur.kind == Expr ==> r.value.1.cur.kind == Expr
    decreases Budget(p)
  {
    if !IsFlag(p.cur.literal) then
      FlagsNone(p, acc);
      Done((acc, p))
    else
      var (name, value, found) := Cut(p.cur.literal[2..], '=');
      if !found then
        FlagsMalformed(p, acc);
        Done(([], p))
      else
        var step :- ExpectPeek(p, Expr);
        if !step.0 then
          FlagsNoWord(p, acc);
          Done(([], step.1))
        else
          var arg := Argument(p.cur, name, value);
          var r :- ParseArgumentsFrom(step.1, acc + [arg]);
          FlagsStep(p, acc, arg, step.1, r.0, r.1);
          Done(r)
  }

  /** Reading stops at once on a word that is no flag, keeping what was collected. */
  lemma FlagsNone(p: Parser, acc: seq<Argument>)
    requires !IsFlag(p.cur.literal)
    ensures FlagsRead(p, acc, acc, p)
  {
  }

  /** A flag without `=` drops the arguments and stays current. */
  lemma FlagsMalformed(p: Parser, acc: seq<Argument>)
    requires IsFlag(p.cur.literal) && '=' !in p.cur.literal[2..]
    ensures FlagsRead(p, acc, [], p)
  {
  }

  /** A well-formed flag without a word after it drops the arguments and records
      the missing word. */
  lemma FlagsNoWord(p: Parser, acc: seq<Argument>)
    requires GoodFlag(p.cur.literal) && p.peek.kind != Expr
    ensures FlagsRead(p, acc, [], PeekError(p, Expr))
  {
  }

  /** One well-formed flag read in front of a reading of the flags after it. */
  lemma FlagsStep(p: Parser, acc: seq<Argument>, arg: Argument, q: Parser, args: seq<Argument>, e: Parser)
    requires Valid(p) && Advanced(p, q) && IsFlag(p.cur.literal)
    requires arg.token == p.cur && Cut(p.cur.literal[2..], '=') == (arg.name, arg.value, true)
    requires q.cur.kind == Expr && Follows(q, e) && FlagsRead(q, acc + [arg], args, e)
    ensures FlagsRead(p, acc, args, e)
  {
    FlagArgument(p, arg);
    FlagsPassedStep(p, q, e);
    if e.errors == q.errors && !IsFlag(e.cur.literal) {
      CollectedStep(p, acc, arg, q, args, e);
    }
  }

  /** The argument a flag with `=` is read into is well formed. */
  lemma FlagArgument(p: Parser, arg: Argument)
    requires IsFlag(p.cur.literal)
    requires arg.token == p.cur && Cut(p.cur.literal[2..], '=') == (arg.name, arg.value, true)
    ensures WellFormedArgument(arg) && GoodFlag(p.cur.literal)
  {
    FlagSpelling(p.cur.literal, arg.name, arg.value);
  }

  /** A flag split at its first `=` is spelled `--name=value`, with no `=` in the name. */
  lemma FlagSpelling(s: string, name: string, value: string)
    requires IsFlag(s) && Cut(s[2..], '=') == (name, value, true)
    ensures s == "--" + name + "=" + value && '=' !in name && '=' in s[2..]
  {
    var t := s[2..];
    assert t == name + ['='] + value;
    assert s == "--" + t;
    assert "--" + t == "--" + name + "=" + value;
  }

  /** A well-formed flag followed by a word is passed on the way to where reading stops. */
  lemma FlagsPassedStep(p: Parser, q: Parser, e: Parser)
    requires Valid(p) && Advanced(p, q) && GoodFlag(p.cur.literal) && q.cur.kind == Expr
    requires FlagsPassed(q, e)
    ensures FlagsPassed(p, e)
  {
    forall k | p.at <= k < e.at ensures FlagWithWord(p.src, k) {
      if k == p.at {
        assert p.src.tokens(k) == Done(p.cur) && p.src.tokens(k + 1) == Done(q.cur);
      }
    }
  }

  /** The argument of one flag in front of those collected after it. */
  lemma CollectedStep(p: Parser, acc: seq<Argument>, arg: Argument, q: Parser, args: seq<Argument>, e: Parser)
    requires Valid(p) && Advanced(p, q) && arg.token == p.cur && WellFormedArgument(arg)
    requires Collected(q, acc + [arg], args, e)
    ensures Collected(p, acc, args, e)
  {
    assert args[..|acc|] == (acc + [arg])[..|acc|] == acc;
    forall i | |acc| <= i < |args|
      ensures WellFormedArgument(args[i]) && p.src.tokens(p.at + i - |acc|) == Done(args[i].token)
    {
      if i == |acc| {
        assert args[..|acc + [arg]|] == acc + [arg];
        assert args[i] == arg;
        assert p.at + i - |acc| == p.at;
      } else {
        var k := q.at + i - |acc + [arg]|;
        assert |acc + [arg]| <= i < |args|;
        assert WellFormedArgument(args[i]) && q.src.tokens(k) == Done(args[i].token);
        assert k == p.at + i - |acc|;
      }
    }
  }

  /** Flag reading stops at one place only: two parsers on the same stream at
      which the flags from `p` could stop sit on the same token. */
  lemma FlagsStopOnce(p: Parser, q1: Parser, q2: Parser)
    requires Valid(q1) && Valid(q2) && q1.src == p.src && q2.src == p.src
    requires FlagsPassed(p, q1) && FlagsPassed(p, q2)
    ensures q1.at == q2.at
  {
    assert !FlagWithWord(p.src, q1.at) && !FlagWithWord(p.src, q2.at);
  }

  /** Every argument read from the flags is well formed. */
  lemma ArgumentsWellFormed(p: Parser, args: seq<Argument>, q: Parser)
    requires FlagsRead(p, [], args, q)
    ensures forall i | 0 <= i < |args| :: WellFormedArgument(args[i])
  {
    if args != [] {
      assert Collected(p, [], args, q);
    }
  }

  /** Go's `parseArguments`: reads the `--name=value` flags in front of the current
      word. Each becomes an argument with `--` removed, split at its first `=`;
      a flag without `=`, or one not followed by a word, yields no arguments. */
  function ParseArguments(p: Parser): (r: Halting<(seq<Argument>, Parser)>)
    requires Valid(p)
    ensures r.Done? ==> Follows(p, r.value.1) && Valid(r.value.1)
    ensures r.Done? ==> FlagsRead(p, [], r.value.0, r.value.1)
    ensures !IsFlag(p.cur.literal) ==> r == Done(([], p))
    ensures r.Done? && p.cur.kind == Expr ==> r.value.1.cur.kind == Expr
  {
    ParseArgumentsFrom(p, [])
  }

  // ---------------------------------------------------------------------------
  // Statements
  // ---------------------------------------------------------------------------

  /** Go's `parseCommentStatement`: `#` must be followed by a word, which becomes
      the comment's value; without one nothing is produced and one error is
      recorded. The end-of-line check may add an error but keeps the comment. */
  function ParseCommentStatement(p: Parser): (r: Halting<(Option<Statement>, Parser)>)
    ensures p.peek.kind != Expr ==> r == Done((None, PeekError(p, Expr)))
    ensures r.Done? ==> Follows(p, r.value.1) && (Valid(p) ==> Valid(r.value.1))
    ensures r.Done? && p.peek.kind == Expr ==>
      && r.value.0 == Some(CommentStatement(p.cur, Ident(p.peek)))
      && p.src.tokens(p.at + 2).Done?
      && r.value.1.errors == p.errors + EndError(p.src.tokens(p.at + 2).value.kind)
  {
    var step :- ExpectPeek(p, Expr);
    if !step.0 then
      Done((None, step.1))
    else
      var q := step.1;
      var value := Ident(q.cur);
      var e :- ExpectPeekEnd(q);
      Done((Some(CommentStatement(p.cur, value)), e))
  }

  /** Go's `parseFromStatement`: a word must follow `FROM`; flags are read, then the
      current word is the source, and when the token after it is `AS` the token
      after that is the alias, whatever it is. Without a first word nothing is
      produced and one error is recorded. */
  function ParseFromStatement(p: Parser): (r: Halting<(Option<Statement>, Parser)>)
    requires Valid(p) && p.cur.kind == From
    ensures p.peek.kind != Expr ==> r == Done((None, PeekError(p, Expr)))
    ensures r.Done? ==> Follows(p, r.value.1) && Valid(r.value.1)
    ensures r.Done? && p.peek.kind == Expr ==>
      && r.value.0.Some? && r.value.0.value.FromStatement?
      && r.value.0.value.token == p.cur && WellFormed(r.value.0.value)
  {
    var step :- ExpectPeek(p, Expr);
    if !step.0 then
      Done((None, step.1))
    else
      var flags :- ParseArguments(step.1);
      var (args, m) := flags;
      ArgumentsWellFormed(step.1, args, m);
      var source := Ident(m.cur);
      var named :- FromAlias(m);
      var e :- ExpectPeekEnd(named.1);
      Done((Some(FromStatement(p.cur, source, named.0, args)), e))
  }

  /** The `AS` part of a `FROM` line: when the lookahead is `AS`, two tokens are
      taken and the second is the alias, whatever its category. */
  function FromAlias(m: Parser): (r: Halting<(Option<Identifier>, Parser)>)
    ensures m.peek.kind != As ==> r == Done((None, m))
    ensures r.Done? && m.peek.kind == As ==>
      && r.value.1.src == m.src && r.value.1.at == m.at + 2 && r.value.1.errors == m.errors
      && m.src.tokens(m.at + 2) == Done(r.value.1.cur)
      && r.value.0 == Some(Ident(r.value.1.cur))
    ensures r.Done? && Valid(m) ==> Valid(r.value.1)
  {
    if m.peek.kind == As then
      var m1 :- NextToken(m);
      var m2 :- NextToken(m1);
      Done((Some(Ident(m2.cur)), m2))
    else
      Done((None, m))
  }

  /** Go's `parseCopyStatement`: a word must follow `COPY`; flags are read, then the
      current word is the source and a further word must follow as the
      destination. A missing word records an error and produces nothing. */
  function ParseCopyStatement(p: Parser): (r: Halting<(Option<Statement>, Parser)>)
    requires Valid(p) && p.cur.kind == Copy
    ensures p.peek.kind != Expr ==> r == Done((None, PeekError(p, Expr)))
    ensures r.Done? ==> Follows(p, r.value.1) && Valid(r.value.1)
    ensures r.Done? && r.value.0.Some? ==>
      && r.value.0.value.CopyStatement?
      && r.value.0.value.token == p.cur && WellFormed(r.value.0.value)
    ensures r.Done? && r.value.0.None? ==> |p.errors| < |r.value.1.errors| <= |p.errors| + 2
  {
    var step :- ExpectPeek(p, Expr);
    if !step.0 then
      Done((None, step.1))
    else
      var flags :- ParseArguments(step.1);
      var (args, m) := flags;
      ArgumentsWellFormed(step.1, args, m);
      var source := Ident(m.cur);
      var dest :- ExpectPeek(m, Expr);
      if !dest.0 then
        Done((None, dest.1))
      else
        var e :- ExpectPeekEnd(dest.1);
        CopyWellFormed(p, args, m, dest.1);
        Done((Some(CopyStatement(p.cur, source, Ident(dest.1.cur), args)), e))
  }

  /** The `COPY` statement built from two words and well-formed flags is well formed. */
  lemma CopyWellFormed(p: Parser, args: seq<Argument>, m: Parser, d: Parser)
    requires Valid(p) && p.cur.kind == Copy && m.cur.kind == Expr && d.cur.kind == Expr
    requires forall i | 0 <= i < |args| :: WellFormedArgument(args[i])
    ensures WellFormed(CopyStatement(p.cur, Ident(m.cur), Ident(d.cur), args))
  {
    assert p.src.tokens(p.at) == Done(p.cur);
  }

  /** Go's `parseArgStatement`: a word must follow `ARG`. Split at its first `=`, the
      word gives the name and the value; a word without `=` is the whole name, and
      the value is the next word if there is one and absent otherwise. */
  function ParseArgStatement(p: Parser): (r: Halting<(Option<Statement>, Parser)>)
    ensures p.peek.kind != Expr ==> r == Done((None, PeekError(p, Expr)))
    ensures r.Done? ==> Follows(p, r.value.1) && (Valid(p) ==> Valid(r.value.1))
    ensures r.Done? && p.peek.kind == Expr ==>
      && r.value.0.Some? && r.value.0.value.ArgStatement?
      && r.value.0.value.token == p.cur && r.value.0.value.value == Ident(p.peek)
      && ArgSplit(p.peek.literal, p.src.tokens(p.at + 2), r.value.0.value.argName, r.value.0.value.argValue)
      && p.src.tokens(p.at + 2).Done?
      && var spaced := '=' !in p.peek.literal && p.src.tokens(p.at + 2).value.kind == Expr;
      && (!spaced ==> r.value.1.errors == p.errors + EndError(p.src.tokens(p.at + 2).value.kind))
      && (spaced ==>
            && p.src.tokens(p.at + 3).Done?
            && r.value.1.errors == p.errors + EndError(p.src.tokens(p.at + 3).value.kind))
  {
    var step :- ExpectPeek(p, Expr);
    if !step.0 then
      Done((None, step.1))
    else
      var q := step.1;
      var value := Ident(q.cur);
      var (name, rest, found) := Cut(q.cur.literal, '=');
      var named :-
        if found then Done((Some(rest), q))
        else if q.peek.kind == Expr then
          var q1 :- NextToken(q);
          Done((Some(q1.cur.literal), q1))
        else Done((None, q));
      var e :- ExpectPeekEnd(named.1);
      Done((Some(ArgStatement(p.cur, value, name, named.0)), e))
  }

  /** How an `ARG` word and the token after it give the argument's name and value. */
  predicate ArgSplit(word: string, after: Halting<Token>, name: string, value: Option<string>) {
    if '=' in word then
      value.Some? && word == name + "=" + value.value && '=' !in name
    else
      && name == word
      && (value.Some? ==> after.Done? && after.value.kind == Expr && value.value == after.value.literal)
      && (value.None? ==> after.Done? ==> after.value.kind != Expr)
  }

  /** A non-nil Go `ast.Statement` interface value: the statement type it holds,
      named by the category of its leading token, and the pointer, which may be nil. */
  datatype Boxed = Boxed(kind: Kind, ptr: Option<Statement>)

  /** Go's `parseStatement`: dispatches on the current token. A line led by anything
      other than `#`, `FROM`, `ARG` or `COPY` yields a nil interface (`None`), no
      error and no movement. Otherwise the result holds a pointer of the statement
      type, which is nil when the statement failed. */
  function ParseStatement(p: Parser): (r: Halting<(Option<Boxed>, Parser)>)
    requires Valid(p)
    ensures !IsStatementKind(p.cur.kind) ==> r == Done((None, p))
    ensures r.Done? ==> Follows(p, r.value.1) && Valid(r.value.1)
    ensures r.Done? && IsStatementKind(p.cur.kind) ==>
      && r.value.0.Some? && r.value.0.value.kind == p.cur.kind
      && (r.value.0.value.ptr.Some? ==> p.peek.kind == Expr)
      && (p.peek.kind == Expr && p.cur.kind != Copy ==> r.value.0.value.ptr.Some?)
      && (r.value.0.value.ptr.Some? ==>
            var s := r.value.0.value.ptr.value;
            s.token == p.cur && HeadKind(s) == p.cur.kind && WellFormed(s))
      && (r.value.0.value.ptr.None? ==> |p.errors| < |r.value.1.errors|)
  {
    var b :-
      match p.cur.kind
      case Comment => ParseCommentStatement(p)
      case From => ParseFromStatement(p)
      case Arg => ParseArgStatement(p)
      case Copy => ParseCopyStatement(p)
      case _ => Done((None, p));
    if IsStatementKind(p.cur.kind) then Done((Some(Boxed(p.cur.kind, b.0)), b.1))
    else Done((None, p))
  }

  /** The `FROM` source is the word reached once the flags are read, and an alias
      is present exactly when the token after the source is `AS`; it is the token
      after `AS`, whatever its category. The only error added after the flags is
      the end-of-statement check on the token after the source or the alias. */
  lemma FromSourceAndAlias(p: Parser, args: seq<Argument>, m: Parser)
    requires Valid(p) && p.cur.kind == From && p.peek.kind == Expr
    requires NextToken(p).Done? && ParseArguments(NextToken(p).value) == Done((args, m))
    ensures ParseFromStatement(p).Done? ==>
      var st := ParseFromStatement(p).value.0.value;
      && st.arguments == args && st.source == Ident(m.cur)
      && (st.alias.Some? <==> m.peek.kind == As)
      && (st.alias.Some? ==> p.src.tokens(m.at + 2) == Done(st.alias.value.token))
      && FromAlias(m).Done?
      && ParseFromStatement(p).value.1.errors == m.errors + EndError(FromAlias(m).value.1.peek.kind)
  {
    assert ExpectPeek(p, Expr) == Done((true, NextToken(p).value));
    var named := FromAlias(m);
    if named.Done? {
      var e := ExpectPeekEnd(named.value.1);
      if e.Done? {
        assert ParseFromStatement(p) == Done((Some(FromStatement(p.cur, Ident(m.cur), named.value.0, args)), e.value));
      }
    }
  }

  /** A flag without `=` right after `FROM` leaves no arguments and is taken as the source. */
  lemma MalformedFlagIsSource(p: Parser)
    requires Valid(p) && p.cur.kind == From && p.peek.kind == Expr
    requires IsFlag(p.peek.literal) && '=' !in p.peek.literal[2..]
    ensures ParseFromStatement(p).Done? ==>
      var st := ParseFromStatement(p).value.0.value;
      st.arguments == [] && st.source == Ident(p.peek)
  {
  }

  /** A `COPY` whose source is not followed by a word produces no statement and
      records exactly the one error about the missing destination. */
  lemma CopyNeedsDest(p: Parser, args: seq<Argument>, m: Parser)
    requires Valid(p) && p.cur.kind == Copy && p.peek.kind == Expr
    requires NextToken(p).Done? && ParseArguments(NextToken(p).value) == Done((args, m))
    requires m.peek.kind != Expr
    ensures ParseCopyStatement(p) == Done((None, PeekError(m, Expr)))
  {
  }

  /** The `COPY` source is the word reached once the flags are read, the destination
      is the word after it, and the arguments are the flags read. The only error
      added after the flags is the end-of-statement check on the token after the
      destination. */
  lemma CopySourceAndDest(p: Parser, args: seq<Argument>, m: Parser)
    requires Valid(p) && p.cur.kind == Copy && p.peek.kind == Expr
    requires NextToken(p).Done? && ParseArguments(NextToken(p).value) == Done((args, m))
    requires m.peek.kind == Expr
    ensures ParseCopyStatement(p).Done? ==>
      && ParseCopyStatement(p).value.0 == Some(CopyStatement(p.cur, Ident(m.cur), Ident(m.peek), args))
      && NextToken(m).Done?
      && ParseCopyStatement(p).value.1.errors == m.errors + EndError(NextToken(m).value.peek.kind)
  {
    assert ExpectPeek(p, Expr) == Done((true, NextToken(p).value));
  }

  // ---------------------------------------------------------------------------
  // Programs
  // ---------------------------------------------------------------------------

  /** Where a parsed statement goes: a comment joins the directives while no other
      statement has been kept; everything else joins the statements. */
  function Place(prog: Program, s: Statement): Program {
    if s.CommentStatement? && prog.statements == [] then prog.(directive := prog.directive + [s])
    else prog.(statements := prog.statements + [s])
  }

  /** The handling of one `parseStatement` result that the Go code evidently intends:
      a statement that failed to parse is dropped. */
  function Keep(prog: Program, b: Option<Boxed>): Program {
    if b.Some? && b.value.ptr.Some? then Place(prog, b.value.ptr.value) else prog
  }

  /** A program as the parser builds it: directives are well-formed comments and
      statements are well-formed. */
  predicate WellFormedProgram(prog: Program) {
    && (forall i | 0 <= i < |prog.directive| :: WellFormed(prog.directive[i]) && prog.directive[i].CommentStatement?)
    && (forall i | 0 <= i < |prog.statements| :: WellFormed(prog.statements[i]))
  }

  /** The loop of `ParseProgram` as the Go code evidently intends it, with `prog`
      what has been kept so far: until the current token is the end of input, a
      statement is parsed from it, kept only when it parsed, and the parser moves
      on by one token. `ParseProgramAsWrittenFrom` is the loop as written. */
  function ParseProgramFrom(p: Parser, prog: Program): (r: Halting<(Program, Parser)>)
    requires Valid(p)
    ensures r.Done? ==> Follows(p, r.value.1) && Valid(r.value.1) && r.value.1.cur.kind == Eof
    ensures r.Done? ==> prog.directive <= r.value.0.directive && prog.statements <= r.value.0.statements
    ensures r.Done? && WellFormedProgram(prog) ==> WellFormedProgram(r.value.0)
    decreases Budget(p)
  {
    if p.cur.kind == Eof then
      Done((prog, p))
    else
      var parsed :- ParseStatement(p);
      var q :- NextToken(parsed.1);
      KeepWellFormed(prog, parsed.0);
      ParseProgramFrom(q, Keep(prog, parsed.0))
  }

  lemma KeepWellFormed(prog: Program, b: Option<Boxed>)
    requires b.Some? && b.value.ptr.Some? ==> WellFormed(b.value.ptr.value)
    ensures prog.directive <= Keep(prog, b).directive && prog.statements <= Keep(prog, b).statements
    ensures WellFormedProgram(prog) ==> WellFormedProgram(Keep(prog, b))
  {
  }

  /** `ParseProgram` as intended: the loop above from an empty program. */
  function ParseProgram(p: Parser): (r: Halting<(Program, Parser)>)
    requires Valid(p)
    ensures r.Done? ==> Follows(p, r.value.1) && r.value.1.cur.kind == Eof
    ensures r.Done? ==> WellFormedProgram(r.value.0)
  {
    ParseProgramFrom(p, Program([], []))
  }

  /** Lexes and parses a whole input with the intended loop: the program and the
      errors. */
  function Parse(input: string): (r: Halting<(Program, seq<ParseError>)>)
    ensures r.Done? ==> WellFormedProgram(r.value.0)
  {
    var p :- New(Lexing.New(input));
    var parsed :- ParseProgram(p);
    Done((parsed.0, parsed.1.errors))
  }

  /** The lexer reads the words after `#` as separate tokens, so a comment of two
      words keeps only the first as its value and records one error about the
      second, yet the comment statement is still built and kept. */
  lemma CommentOfTwoWords()
    ensures Parse("# a b") ==
      Done((Program([CommentStatement(Token(Comment, "#"), Ident(Token(Expr, "a")))], []), [ParseError(Eol, Expr)]))
  {
    var l := Lexing.New("# a b");
    var src := LexerStream(l);
    CommentOfTwoWordsRead();
    assert New(l) == Done(Parser(src, 0, Token(Comment, "#"), Token(Expr, "a"), []));
    CommentOfTwoWordsParsed(src);
  }

  /** The program loop over the tokens of `# a b`. */
  lemma CommentOfTwoWordsParsed(src: Stream)
    requires StreamOk(src)
    requires src.tokens(0) == Done(Token(Comment, "#")) && src.tokens(1) == Done(Token(Expr, "a"))
    requires src.tokens(2) == Done(Token(Expr, "b"))
    requires src.tokens(3) == Done(Token(Eof, "")) && src.tokens(4) == Done(Token(Eof, ""))
    ensures ParseProgram(Parser(src, 0, Token(Comment, "#"), Token(Expr, "a"), [])) ==
      Done((Program([CommentStatement(Token(Comment, "#"), Ident(Token(Expr, "a")))], []),
            Parser(src, 3, Token(Eof, ""), Token(Eof, ""), [ParseError(Eol, Expr)])))
  {
    var p := Parser(src, 0, Token(Comment, "#"), Token(Expr, "a"), []);
    var st := CommentStatement(Token(Comment, "#"), Ident(Token(Expr, "a")));
    var q := Parser(src, 1, Token(Expr, "a"), Token(Expr, "b"), [ParseError(Eol, Expr)]);
    CommentThenTwoWords(p);
    assert PeekError(NextToken(p).value, Eol) == q;
    var r := Parser(src, 2, Token(Expr, "b"), Token(Eof, ""), q.errors);
    assert NextToken(q) == Done(r);
    var prog := Program([st], []);
    CommentOfTwoWordsTail(src, prog);
    assert Keep(Program([], []), Some(Boxed(Comment, Some(st)))) == prog;
    ProgramStep(p, Program([], []));
  }

  /** The rest of the loop over `# a b`: the word `b` is no statement, and then the
      input ends. */
  lemma CommentOfTwoWordsTail(src: Stream, prog: Program)
    requires StreamOk(src)
    requires src.tokens(2) == Done(Token(Expr, "b"))
    requires src.tokens(3) == Done(Token(Eof, "")) && src.tokens(4) == Done(Token(Eof, ""))
    ensures ParseProgramFrom(Parser(src, 2, Token(Expr, "b"), Token(Eof, ""), [ParseError(Eol, Expr)]), prog) ==
      Done((prog, Parser(src, 3, Token(Eof, ""), Token(Eof, ""), [ParseError(Eol, Expr)])))
  {
    var r := Parser(src, 2, Token(Expr, "b"), Token(Eof, ""), [ParseError(Eol, Expr)]);
    var e := Parser(src, 3, Token(Eof, ""), Token(Eof, ""), [ParseError(Eol, Expr)]);
    assert NextToken(r) == Done(e);
    ProgramStep(e, prog);
    assert ParseStatement(r) == Done((None, r));
    ProgramStep(r, prog);
  }

  /** A comment followed by two words: the first is its value, and the second is
      reported as one error while the statement is still built. */
  lemma CommentThenTwoWords(p: Parser)
    requires Valid(p) && p.cur.kind == Comment && p.peek.kind == Expr
    requires p.src.tokens(p.at + 2).Done? && p.src.tokens(p.at + 2).value.kind == Expr
    ensures NextToken(p).Done?
    ensures ParseStatement(p) ==
      Done((Some(Boxed(Comment, Some(CommentStatement(p.cur, Ident(p.peek))))), PeekError(NextToken(p).value, Eol)))
  {
    assert ExpectPeek(p, Expr) == Done((true, NextToken(p).value));
  }

  /** The tokens of `# a b`: the mark, two words, then the end of input. */
  lemma CommentOfTwoWordsRead()
    ensures var l := Lexing.New("# a b");
      && TokenAt(l, 0) == Done(Token(Comment, "#"))
      && TokenAt(l, 1) == Done(Token(Expr, "a"))
      && TokenAt(l, 2) == Done(Token(Expr, "b"))
      && TokenAt(l, 3) == Done(Token(Eof, ""))
      && TokenAt(l, 4) == Done(Token(Eof, ""))
  {
    var l0 := Lexing.New("# a b");
    CommentOfTwoWordsLexed();
    var ts := [Token(Comment, "#"), Token(Expr, "a"), Token(Expr, "b"), Token(Eof, ""), Token(Eof, "")];
    CallsNumbered([l0, l0.(pos := 1), l0.(pos := 3), l0.(pos := 5), l0.(pos := 6), l0.(pos := 7)], ts);
    assert TokenAt(l0, 4) == Done(ts[4]);
  }

  /** Calls of the lexer, each from where the one before stopped, number the tokens
      they return from 0. */
  lemma {:induction false} CallsNumbered(ls: seq<Lexing.Lexer>, ts: seq<Token>)
    requires |ls| == |ts| + 1
    requires forall i | 0 <= i < |ts| :: Lexing.NextToken(ls[i]) == Done(Lexing.Lexed(ts[i], ls[i + 1]))
    ensures forall i | 0 <= i < |ts| :: TokenAt(ls[0], i) == Done(ts[i])
  {
    if ts != [] {
      var ls', ts' := ls[1..], ts[1..];
      forall i | 0 <= i < |ts'| ensures Lexing.NextToken(ls'[i]) == Done(Lexing.Lexed(ts'[i], ls'[i + 1])) {
        assert ls'[i] == ls[i + 1] && ls'[i + 1] == ls[i + 2] && ts'[i] == ts[i + 1];
        assert Lexing.NextToken(ls[i + 1]) == Done(Lexing.Lexed(ts[i + 1], ls[i + 2]));
      }
      CallsNumbered(ls', ts');
      assert Lexing.NextToken(ls[0]) == Done(Lexing.Lexed(ts[0], ls[1]));
      TokenAtFirst(ls[0]);
      forall i | 0 < i < |ts| ensures TokenAt(ls[0], i) == Done(ts[i]) {
        TokenAtShift(ls[0], i - 1);
        assert ls[1..][0] == ls[1] && ts[1..][i - 1] == ts[i];
      }
    }
  }

  /** The lexer's calls on `# a b`, one by one. */
  lemma CommentOfTwoWordsLexed()
    ensures var l0 := Lexing.New("# a b");
      && Lexing.NextToken(l0) == Done(Lexing.Lexed(Token(Comment, "#"), l0.(pos := 1)))
      && Lexing.NextToken(l0.(pos := 1)) == Done(Lexing.Lexed(Token(Expr, "a"), l0.(pos := 3)))
      && Lexing.NextToken(l0.(pos := 3)) == Done(Lexing.Lexed(Token(Expr, "b"), l0.(pos := 5)))
      && Lexing.NextToken(l0.(pos := 5)) == Done(Lexing.Lexed(Token(Eof, ""), l0.(pos := 6)))
      && Lexing.NextToken(l0.(pos := 6)) == Done(Lexing.Lexed(Token(Eof, ""), l0.(pos := 7)))
  {
    var l0 := Lexing.New("# a b");
    assert Lexing.SkipWhitespace(l0) == l0;
    Lexing.PunctuationAt(l0, l0, Token(Comment, "#"), l0.(pos := 1));
    var l1 := l0.(pos := 1);
    assert Lexing.Skippable(l1.input, 1);
    Lexing.SkipWhitespaceNoLine(l1, 2);
    var w1 := l1.(pos := 2);
    assert w1.input[2..3] == "a";
    Lexing.WordTextAt(l1, w1, 3, "a", Token(Expr, "a"), w1.(pos := 3));
    var l2 := w1.(pos := 3);
    assert Lexing.Skippable(l2.input, 3);
    Lexing.SkipWhitespaceNoLine(l2, 4);
    var w2 := l2.(pos := 4);
    assert w2.input[4..5] == "b";
    Lexing.WordTextAt(l2, w2, 5, "b", Token(Expr, "b"), w2.(pos := 5));
    Lexing.EofForever(l0.(pos := 5));
    Lexing.EofForever(l0.(pos := 6));
  }

  /** A literal U+FFFD reads as an `EOF` token. Where a statement would start, the
      program loop stops on it, so the words after it form no statement; the token
      after it is still read as the lookahead, so an unterminated quote there never
      ends. */
  lemma SentinelEndsProgram()
    ensures Parse("\U{FFFD}x") == Done((Program([], []), []))
  {
    var l := Lexing.New("\U{FFFD}x");
    assert Lexing.SkipWhitespace(l) == l;
    Lexing.LexEnd(l);
    var l1 := Lexing.ReadRune(l);
    assert StateAt(l, 1) == Done(l1);
    assert Lexing.SkipWhitespace(l1) == l1;
    Lexing.DispatchWord(l1);
    assert TokenAt(l, 0) == Done(Token(Eof, ""));
    assert TokenAt(l, 1).Done?;
  }

  /** Right after a statement's last word, the `EOF` a literal U+FFFD reads as ends
      that statement like an end of line, and parsing goes on after it: the comment
      after it still becomes a directive. */
  lemma SentinelEndsStatement()
    ensures Parse("# a\U{FFFD}# b") ==
      Done((Program([CommentStatement(Token(Comment, "#"), Ident(Token(Expr, "a"))),
                     CommentStatement(Token(Comment, "#"), Ident(Token(Expr, "b")))], []), []))
  {
    var l := Lexing.New("# a\U{FFFD}# b");
    var src := LexerStream(l);
    var ts := [Token(Comment, "#"), Token(Expr, "a"), Token(Eof, ""), Token(Comment, "#"), Token(Expr, "b"),
               Token(Eof, ""), Token(Eof, ""), Token(Eof, "")];
    SentinelLexed();
    CallsNumbered([l, l.(pos := 1), l.(pos := 3), l.(pos := 4), l.(pos := 5), l.(pos := 7), l.(pos := 8),
                   l.(pos := 9), l.(pos := 10)], ts);
    assert TokenAt(l, 0) == Done(ts[0]) && TokenAt(l, 1) == Done(ts[1]);
    assert New(l) == Done(Parser(src, 0, Token(Comment, "#"), Token(Expr, "a"), []));
    SentinelParsed(src);
  }

  /** The lexer's calls on `# a`, U+FFFD, `# b`, one by one: the word `a` stops at
      the U+FFFD, which reads as `EOF`, and lexing goes on after it. */
  lemma SentinelLexed()
    ensures var l0 := Lexing.New("# a\U{FFFD}# b");
      && Lexing.NextToken(l0) == Done(Lexing.Lexed(Token(Comment, "#"), l0.(pos := 1)))
      && Lexing.NextToken(l0.(pos := 1)) == Done(Lexing.Lexed(Token(Expr, "a"), l0.(pos := 3)))
      && Lexing.NextToken(l0.(pos := 3)) == Done(Lexing.Lexed(Token(Eof, ""), l0.(pos := 4)))
      && Lexing.NextToken(l0.(pos := 4)) == Done(Lexing.Lexed(Token(Comment, "#"), l0.(pos := 5)))
      && Lexing.NextToken(l0.(pos := 5)) == Done(Lexing.Lexed(Token(Expr, "b"), l0.(pos := 7)))
      && Lexing.NextToken(l0.(pos := 7)) == Done(Lexing.Lexed(Token(Eof, ""), l0.(pos := 8)))
      && Lexing.NextToken(l0.(pos := 8)) == Done(Lexing.Lexed(Token(Eof, ""), l0.(pos := 9)))
      && Lexing.NextToken(l0.(pos := 9)) == Done(Lexing.Lexed(Token(Eof, ""), l0.(pos := 10)))
  {
    var l0 := Lexing.New("# a\U{FFFD}# b");
    SentinelLexedFirst();
    var l4 := l0.(pos := 4);
    assert Lexing.SkipWhitespace(l4) == l4;
    Lexing.PunctuationAt(l4, l4, Token(Comment, "#"), l0.(pos := 5));
    var l5 := l0.(pos := 5);
    assert Lexing.Skippable(l5.input, 5);
    Lexing.SkipWhitespaceNoLine(l5, 6);
    var w5 := l0.(pos := 6);
    assert w5.input[6..7] == "b";
    Lexing.WordTextAt(l5, w5, 7, "b", Token(Expr, "b"), l0.(pos := 7));
    Lexing.EofForever(l0.(pos := 7));
    Lexing.EofForever(l0.(pos := 8));
    Lexing.EofForever(l0.(pos := 9));
  }

  /** The first three calls on `# a`, U+FFFD, `# b`. */
  lemma SentinelLexedFirst()
    ensures var l0 := Lexing.New("# a\U{FFFD}# b");
      && Lexing.NextToken(l0) == Done(Lexing.Lexed(Token(Comment, "#"), l0.(pos := 1)))
      && Lexing.NextToken(l0.(pos := 1)) == Done(Lexing.Lexed(Token(Expr, "a"), l0.(pos := 3)))
      && Lexing.NextToken(l0.(pos := 3)) == Done(Lexing.Lexed(Token(Eof, ""), l0.(pos := 4)))
  {
    var l0 := Lexing.New("# a\U{FFFD}# b");
    assert Lexing.SkipWhitespace(l0) == l0;
    Lexing.PunctuationAt(l0, l0, Token(Comment, "#"), l0.(pos := 1));
    var l1 := l0.(pos := 1);
    assert Lexing.Skippable(l1.input, 1);
    Lexing.SkipWhitespaceNoLine(l1, 2);
    var w1 := l0.(pos := 2);
    assert w1.input[2..3] == "a";
    Lexing.WordTextAt(l1, w1, 3, "a", Token(Expr, "a"), l0.(pos := 3));
    var l3 := l0.(pos := 3);
    assert Lexing.SkipWhitespace(l3) == l3;
    Lexing.LexEnd(l3);
  }

  /** The program loop over the tokens of `# a`, U+FFFD, `# b`. */
  lemma SentinelParsed(src: Stream)
    requires StreamOk(src)
    requires src.tokens(0) == Done(Token(Comment, "#")) && src.tokens(1) == Done(Token(Expr, "a"))
    requires src.tokens(2) == Done(Token(Eof, "")) && src.tokens(3) == Done(Token(Comment, "#"))
    requires src.tokens(4) == Done(Token(Expr, "b")) && src.tokens(5) == Done(Token(Eof, ""))
    requires src.tokens(6) == Done(Token(Eof, "")) && src.tokens(7) == Done(Token(Eof, ""))
    ensures ParseProgram(Parser(src, 0, Token(Comment, "#"), Token(Expr, "a"), [])) ==
      Done((Program([CommentStatement(Token(Comment, "#"), Ident(Token(Expr, "a"))),
                     CommentStatement(Token(Comment, "#"), Ident(Token(Expr, "b")))], []),
            Parser(src, 6, Token(Eof, ""), Token(Eof, ""), [])))
  {
    var p := Parser(src, 0, Token(Comment, "#"), Token(Expr, "a"), []);
    var a := CommentStatement(Token(Comment, "#"), Ident(Token(Expr, "a")));
    var q := Parser(src, 2, Token(Eof, ""), Token(Comment, "#"), []);
    CommentThenEnd(p);
    assert NextToken(NextToken(p).value).value == q;
    var r := Parser(src, 3, Token(Comment, "#"), Token(Expr, "b"), []);
    assert NextToken(q) == Done(r);
    var prog := Program([a], []);
    SentinelParsedTail(src, prog);
    var b := CommentStatement(Token(Comment, "#"), Ident(Token(Expr, "b")));
    assert prog.(directive := prog.directive + [b]) == Program([a, b], []);
    assert Keep(Program([], []), Some(Boxed(Comment, Some(a)))) == prog;
    ProgramStep(p, Program([], []));
    assert ParseProgramFrom(p, Program([], [])) == ParseProgramFrom(r, prog);
  }

  /** The rest of the loop: the comment `# b`, then the end of input. */
  lemma SentinelParsedTail(src: Stream, prog: Program)
    requires StreamOk(src)
    requires src.tokens(3) == Done(Token(Comment, "#")) && src.tokens(4) == Done(Token(Expr, "b"))
    requires src.tokens(5) == Done(Token(Eof, "")) && src.tokens(6) == Done(Token(Eof, ""))
    requires src.tokens(7) == Done(Token(Eof, ""))
    requires prog.statements == []
    ensures ParseProgramFrom(Parser(src, 3, Token(Comment, "#"), Token(Expr, "b"), []), prog) ==
      Done((prog.(directive := prog.directive + [CommentStatement(Token(Comment, "#"), Ident(Token(Expr, "b")))]),
            Parser(src, 6, Token(Eof, ""), Token(Eof, ""), [])))
  {
    var r := Parser(src, 3, Token(Comment, "#"), Token(Expr, "b"), []);
    var b := CommentStatement(Token(Comment, "#"), Ident(Token(Expr, "b")));
    CommentThenEnd(r);
    var e := Parser(src, 5, Token(Eof, ""), Token(Eof, ""), []);
    var f := Parser(src, 6, Token(Eof, ""), Token(Eof, ""), []);
    assert NextToken(e) == Done(f);
    var kept := prog.(directive := prog.directive + [b]);
    assert Keep(prog, Some(Boxed(Comment, Some(b)))) == kept;
    ProgramStep(f, kept);
    ProgramStep(r, prog);
  }

  /** A comment whose word ends the line or the input: the statement is built, no
      error is recorded, and the parser moves onto the token that ended it. */
  lemma CommentThenEnd(p: Parser)
    requires Valid(p) && p.cur.kind == Comment && p.peek.kind == Expr
    requires p.src.tokens(p.at + 2).Done? && Ends(p.src.tokens(p.at + 2).value.kind)
    requires p.src.tokens(p.at + 3).Done?
    ensures NextToken(p).Done? && NextToken(NextToken(p).value).Done?
    ensures var q := NextToken(NextToken(p).value).value;
      && q.at == p.at + 2 && q.errors == p.errors
      && ParseStatement(p) == Done((Some(Boxed(Comment, Some(CommentStatement(p.cur, Ident(p.peek))))), q))
  {
    assert ExpectPeek(p, Expr) == Done((true, NextToken(p).value));
  }

  lemma SentinelLookaheadDiverges()
    ensures Parse("\U{FFFD}\"").Diverges?
  {
    var l := Lexing.New("\U{FFFD}\"");
    assert Lexing.SkipWhitespace(l) == l;
    Lexing.LexEnd(l);
    var l1 := Lexing.ReadRune(l);
    assert StateAt(l, 1) == Done(l1);
    assert Lexing.SkipWhitespace(l1) == l1;
    Lexing.NextTokenDiverges(l1);
    assert TokenAt(l, 1).Diverges?;
  }

  // ---------------------------------------------------------------------------
  // Directives are the leading comments
  // ---------------------------------------------------------------------------

  /** Every statement that parses from `p` on, in input order, after `acc`. */
  function ParsedFrom(p: Parser, acc: seq<Statement>): (r: Halting<(seq<Statement>, Parser)>)
    requires Valid(p)
    ensures r.Done? ==> acc <= r.value.0
    decreases Budget(p)
  {
    if p.cur.kind == Eof then
      Done((acc, p))
    else
      var parsed :- ParseStatement(p);
      var q :- NextToken(parsed.1);
      var b := parsed.0;
      ParsedFrom(q, if b.Some? && b.value.ptr.Some? then acc + [b.value.ptr.value] else acc)
  }

  /** The number of comments that open `s`. */
  function LeadingComments(s: seq<Statement>): (n: nat)
    ensures n <= |s|
    ensures forall i | 0 <= i < n :: s[i].CommentStatement?
    ensures n < |s| ==> !s[n].CommentStatement?
  {
    if s == [] || !s[0].CommentStatement? then 0 else 1 + LeadingComments(s[1..])
  }

  /** A run of statements sorted as a program: the comments before the first other
      statement are the directives, the rest are the statements. */
  function Split(s: seq<Statement>): Program {
    Program(s[..LeadingComments(s)], s[LeadingComments(s)..])
  }

  lemma {:induction false} LeadingCommentsAppend(s: seq<Statement>, x: Statement)
    ensures LeadingComments(s + [x]) ==
      if LeadingComments(s) == |s| && x.CommentStatement? then |s| + 1 else LeadingComments(s)
  {
    if s != [] && s[0].CommentStatement? {
      assert (s + [x])[1..] == s[1..] + [x];
      LeadingCommentsAppend(s[1..], x);
    }
  }

  /** Placing one more statement keeps a sorted program sorted. */
  lemma PlaceSplit(s: seq<Statement>, x: Statement)
    ensures Place(Split(s), x) == Split(s + [x])
  {
    LeadingCommentsAppend(s, x);
    var k := LeadingComments(s);
    assert (s + [x])[..k] == s[..k];
    if k == |s| && x.CommentStatement? {
      assert (s + [x])[..k + 1] == s[..k] + [x];
    } else {
      assert (s + [x])[k..] == s[k..] + [x];
    }
  }

  /** The program the parser builds is the run of statements that parsed, in input
      order, sorted so that the directives are exactly the comments before the first
      other statement. */
  lemma {:induction false} ProgramIsSplit(p: Parser, acc: seq<Statement>)
    requires Valid(p)
    ensures ParsedFrom(p, acc).Diverges? ==> ParseProgramFrom(p, Split(acc)).Diverges?
    ensures ParsedFrom(p, acc).Done? ==>
      ParseProgramFrom(p, Split(acc)) == Done((Split(ParsedFrom(p, acc).value.0), ParsedFrom(p, acc).value.1))
    decreases Budget(p)
  {
    if p.cur.kind != Eof && ParseStatement(p).Done? && NextToken(ParseStatement(p).value.1).Done? {
      var parsed := ParseStatement(p).value;
      var q := NextToken(parsed.1).value;
      var b := parsed.0;
      var acc' := if b.Some? && b.value.ptr.Some? then acc + [b.value.ptr.value] else acc;
      if b.Some? && b.value.ptr.Some? {
        PlaceSplit(acc, b.value.ptr.value);
      }
      assert Keep(Split(acc), b) == Split(acc');
      ProgramIsSplit(q, acc');
    }
  }

  /** `ParseProgram` keeps every statement that parsed, in order; its directives are
      the comments before the first other statement, and its statements the rest. */
  lemma DirectivesLeadProgram(p: Parser)
    requires Valid(p) && ParseProgram(p).Done?
    ensures ParsedFrom(p, []).Done?
    ensures var prog := ParseProgram(p).value.0;
      && prog.directive + prog.statements == ParsedFrom(p, []).value.0
      && |prog.directive| == LeadingComments(ParsedFrom(p, []).value.0)
  {
    SplitJoin([]);
    ProgramIsSplit(p, []);
    SplitJoin(ParsedFrom(p, []).value.0);
  }

  /** Sorting a run of statements into a program loses and reorders nothing. */
  lemma SplitJoin(s: seq<Statement>)
    ensures Split(s).directive + Split(s).statements == s && |Split(s).directive| == LeadingComments(s)
    ensures s == [] ==> Split(s) == Program([], [])
  {
    var k := LeadingComments(s);
    assert Split(s) == Program(s[..k], s[k..]);
    assert s[..k] + s[k..] == s;
  }

  // ---------------------------------------------------------------------------
  // The program loop as written
  // ---------------------------------------------------------------------------

  /** A program as the Go code builds it: its slices hold interface values, which
      may wrap nil pointers. */
  datatype BoxedProgram = BoxedProgram(directive: seq<Boxed>, statements: seq<Boxed>)

  /** The Go handling of one `parseStatement` result: the `stmt != nil` test is true
      for a nil pointer wrapped in the interface, so a failed statement is kept as a
      nil entry, and a failed comment still counts as a comment. */
  function KeepAsWritten(prog: BoxedProgram, b: Option<Boxed>): BoxedProgram {
    if b.None? then prog
    else if b.value.kind == Comment && prog.statements == [] then prog.(directive := prog.directive + [b.value])
    else prog.(statements := prog.statements + [b.value])
  }

  /** Every entry of a program, directives first. */
  function Entries(prog: BoxedProgram): seq<Boxed> {
    prog.directive + prog.statements
  }

  /** The directives are exactly the entries of statement type `CommentStatement`
      before the first entry of another type. */
  predicate Classified(prog: BoxedProgram) {
    && (forall i | 0 <= i < |prog.directive| :: prog.directive[i].kind == Comment)
    && (prog.statements != [] ==> prog.statements[0].kind != Comment)
  }

  /** Keeping a result appends it to the entries and keeps them classified. */
  lemma KeepAsWrittenFacts(prog: BoxedProgram, b: Option<Boxed>)
    ensures Entries(KeepAsWritten(prog, b)) == Entries(prog) + Results(b)
    ensures prog.directive <= KeepAsWritten(prog, b).directive && prog.statements <= KeepAsWritten(prog, b).statements
    ensures Classified(prog) ==> Classified(KeepAsWritten(prog, b))
  {
    if b.Some? {
      if b.value.kind == Comment && prog.statements == [] {
        assert Entries(KeepAsWritten(prog, b)) == prog.directive + [b.value] + [];
      } else {
        AppendAssoc(prog.directive, prog.statements, [b.value]);
      }
    }
  }

  lemma AppendAssoc<T>(a: seq<T>, b: seq<T>, c: seq<T>)
    ensures a + (b + c) == a + b + c
  {
  }

  /** The loop of Go's `ParseProgram` exactly as written. */
  function ParseProgramAsWrittenFrom(p: Parser, prog: BoxedProgram): (r: Halting<(BoxedProgram, Parser)>)
    requires Valid(p)
    ensures r.Done? ==> Follows(p, r.value.1) && r.value.1.cur.kind == Eof
    ensures r.Done? ==> prog.directive <= r.value.0.directive && prog.statements <= r.value.0.statements
    ensures r.Done? ==> Entries(prog) <= Entries(r.value.0)
    ensures r.Done? && Classified(prog) ==> Classified(r.value.0)
    decreases Budget(p)
  {
    if p.cur.kind == Eof then
      Done((prog, p))
    else
      var parsed :- ParseStatement(p);
      var q :- NextToken(parsed.1);
      KeepAsWrittenFacts(prog, parsed.0);
      ParseProgramAsWrittenFrom(q, KeepAsWritten(prog, parsed.0))
  }

  /** Go's `ParseProgram` as written, after lexing a whole input: the program and
      the errors. Its entries are every result the statement parser returned, in
      input order, failed ones included; the directives are the leading run of
      comment entries. */
  function ParseAsWritten(input: string): (r: Halting<(BoxedProgram, seq<ParseError>)>)
    ensures r.Done? ==> Classified(r.value.0)
    ensures r.Done? ==>
      && New(Lexing.New(input)).Done?
      && AsWrittenResults(New(Lexing.New(input)).value, []).Done?
      && Entries(r.value.0) == AsWrittenResults(New(Lexing.New(input)).value, []).value.0
      && r.value.1 == AsWrittenResults(New(Lexing.New(input)).value, []).value.1.errors
  {
    var p :- New(Lexing.New(input));
    AsWrittenCollects(p, BoxedProgram([], []));
    var parsed :- ParseProgramAsWrittenFrom(p, BoxedProgram([], []));
    Done((parsed.0, parsed.1.errors))
  }

  /** The entry one statement parser result adds: the interface value, if non-nil. */
  function Results(b: Option<Boxed>): seq<Boxed> {
    if b.Some? then [b.value] else []
  }

  /** Every result the statement parser returns from `p` on, in input order, after
      `acc`: each non-nil interface value, whether or not its pointer is nil. */
  function AsWrittenResults(p: Parser, acc: seq<Boxed>): (r: Halting<(seq<Boxed>, Parser)>)
    requires Valid(p)
    ensures r.Done? ==> acc <= r.value.0
    decreases Budget(p)
  {
    if p.cur.kind == Eof then
      Done((acc, p))
    else
      var parsed :- ParseStatement(p);
      var q :- NextToken(parsed.1);
      AsWrittenResults(q, acc + Results(parsed.0))
  }

  /** The loop as written keeps every result the statement parser returns, in
      order, after the entries it started with, and stops where the results end. */
  lemma {:induction false} AsWrittenCollects(p: Parser, prog: BoxedProgram)
    requires Valid(p)
    ensures ParseProgramAsWrittenFrom(p, prog).Done? <==> AsWrittenResults(p, Entries(prog)).Done?
    ensures ParseProgramAsWrittenFrom(p, prog).Done? ==>
      && Entries(ParseProgramAsWrittenFrom(p, prog).value.0) == AsWrittenResults(p, Entries(prog)).value.0
      && ParseProgramAsWrittenFrom(p, prog).value.1 == AsWrittenResults(p, Entries(prog)).value.1
    decreases Budget(p)
  {
    AsWrittenStep(p, prog);
    ResultsStep(p, Entries(prog));
    if p.cur.kind != Eof && ParseStatement(p).Done? && NextToken(ParseStatement(p).value.1).Done? {
      var parsed := ParseStatement(p).value;
      KeepAsWrittenFacts(prog, parsed.0);
      AsWrittenCollects(NextToken(parsed.1).value, KeepAsWritten(prog, parsed.0));
    }
  }

  /** One round of collecting results. */
  lemma ResultsStep(p: Parser, acc: seq<Boxed>)
    requires Valid(p)
    ensures p.cur.kind == Eof ==> AsWrittenResults(p, acc) == Done((acc, p))
    ensures p.cur.kind != Eof && (ParseStatement(p).Diverges? || NextToken(ParseStatement(p).value.1).Diverges?) ==>
      AsWrittenResults(p, acc).Diverges?
    ensures p.cur.kind != Eof && ParseStatement(p).Done? && NextToken(ParseStatement(p).value.1).Done? ==>
      var parsed := ParseStatement(p).value;
      AsWrittenResults(p, acc) ==
        AsWrittenResults(NextToken(parsed.1).value, acc + Results(parsed.0))
  {
  }

  /** The results collected after `acc` are `acc` followed by those collected from
      nothing. */
  lemma {:induction false} AsWrittenResultsShift(p: Parser, acc: seq<Boxed>)
    requires Valid(p)
    ensures AsWrittenResults(p, acc).Done? <==> AsWrittenResults(p, []).Done?
    ensures AsWrittenResults(p, acc).Done? ==>
      && AsWrittenResults(p, acc).value.0 == acc + AsWrittenResults(p, []).value.0
      && AsWrittenResults(p, acc).value.1 == AsWrittenResults(p, []).value.1
    decreases Budget(p)
  {
    ResultsStep(p, acc);
    ResultsStep(p, []);
    if p.cur.kind != Eof && ParseStatement(p).Done? && NextToken(ParseStatement(p).value.1).Done? {
      var parsed := ParseStatement(p).value;
      var q := NextToken(parsed.1).value;
      var extra := Results(parsed.0);
      assert [] + extra == extra;
      AsWrittenResultsShift(q, acc + extra);
      AsWrittenResultsShift(q, extra);
      if AsWrittenResults(q, []).Done? {
        AppendAssoc(acc, extra, AsWrittenResults(q, []).value.0);
      }
    }
  }

  /** From any program so far, the loop as written appends exactly the results
      collected from nothing. */
  lemma AsWrittenAppends(p: Parser, prog: BoxedProgram)
    requires Valid(p) && ParseProgramAsWrittenFrom(p, prog).Done?
    ensures AsWrittenResults(p, []).Done?
    ensures Entries(ParseProgramAsWrittenFrom(p, prog).value.0) == Entries(prog) + AsWrittenResults(p, []).value.0
  {
    AsWrittenCollects(p, prog);
    AsWrittenResultsShift(p, Entries(prog));
  }

  /** The interface value the Go code stores for a statement that parsed. */
  function Box(s: Statement): Boxed {
    Boxed(HeadKind(s), Some(s))
  }

  function BoxAll(s: seq<Statement>): (r: seq<Boxed>)
    ensures |r| == |s| && forall i | 0 <= i < |s| :: r[i] == Box(s[i])
  {
    seq(|s|, i requires 0 <= i < |s| => Box(s[i]))
  }

  /** A program of statements that all parsed, as the Go code stores it. */
  function Boxes(prog: Program): BoxedProgram {
    BoxedProgram(BoxAll(prog.directive), BoxAll(prog.statements))
  }

  /** A result that holds a statement is kept alike by both loops. */
  lemma KeepBoxed(prog: Program, b: Option<Boxed>)
    requires b.Some? ==> b.value.ptr.Some? && b.value.kind == HeadKind(b.value.ptr.value)
    ensures KeepAsWritten(Boxes(prog), b) == Boxes(Keep(prog, b))
  {
    if b.Some? {
      var s := b.value.ptr.value;
      assert b.value == Box(s);
      assert BoxAll(prog.directive + [s]) == BoxAll(prog.directive) + [Box(s)];
      assert BoxAll(prog.statements + [s]) == BoxAll(prog.statements) + [Box(s)];
    }
  }

  /** One round of the intended loop. */
  lemma ProgramStep(p: Parser, prog: Program)
    requires Valid(p)
    ensures p.cur.kind == Eof ==> ParseProgramFrom(p, prog) == Done((prog, p))
    ensures p.cur.kind != Eof && (ParseStatement(p).Diverges? || NextToken(ParseStatement(p).value.1).Diverges?) ==>
      ParseProgramFrom(p, prog).Diverges?
    ensures p.cur.kind != Eof && ParseStatement(p).Done? && NextToken(ParseStatement(p).value.1).Done? ==>
      var parsed := ParseStatement(p).value;
      ParseProgramFrom(p, prog) == ParseProgramFrom(NextToken(parsed.1).value, Keep(prog, parsed.0))
  {
  }

  /** One round of the loop as written. */
  lemma AsWrittenStep(p: Parser, prog: BoxedProgram)
    requires Valid(p)
    ensures p.cur.kind == Eof ==> ParseProgramAsWrittenFrom(p, prog) == Done((prog, p))
    ensures p.cur.kind != Eof && (ParseStatement(p).Diverges? || NextToken(ParseStatement(p).value.1).Diverges?) ==>
      ParseProgramAsWrittenFrom(p, prog).Diverges?
    ensures p.cur.kind != Eof && ParseStatement(p).Done? && NextToken(ParseStatement(p).value.1).Done? ==>
      var parsed := ParseStatement(p).value;
      ParseProgramAsWrittenFrom(p, prog) == ParseProgramAsWrittenFrom(NextToken(parsed.1).value, KeepAsWritten(prog, parsed.0))
  {
  }

  /** Both loops take the same steps, whatever each has kept so far: they finish
      or diverge together and stop on the same parser, with the same errors. */
  lemma {:induction false} SameSteps(p: Parser, prog: Program, boxed: BoxedProgram)
    requires Valid(p)
    ensures ParseProgramFrom(p, prog).Done? <==> ParseProgramAsWrittenFrom(p, boxed).Done?
    ensures ParseProgramFrom(p, prog).Done? ==>
      ParseProgramAsWrittenFrom(p, boxed).value.1 == ParseProgramFrom(p, prog).value.1
    decreases Budget(p)
  {
    ProgramStep(p, prog);
    AsWrittenStep(p, boxed);
    if p.cur.kind != Eof && ParseStatement(p).Done? && NextToken(ParseStatement(p).value.1).Done? {
      var parsed := ParseStatement(p).value;
      SameSteps(NextToken(parsed.1).value, Keep(prog, parsed.0), KeepAsWritten(boxed, parsed.0));
    }
  }

  /** When no error is recorded on the way, no statement failed, so the program as
      written holds exactly the statements the intended loop keeps. */
  lemma {:induction false} AsWrittenAgrees(p: Parser, prog: Program)
    requires Valid(p)
    ensures ParseProgramFrom(p, prog).Done? && ParseProgramFrom(p, prog).value.1.errors == p.errors ==>
      ParseProgramAsWrittenFrom(p, Boxes(prog)) == Done((Boxes(ParseProgramFrom(p, prog).value.0), ParseProgramFrom(p, prog).value.1))
    decreases Budget(p)
  {
    ProgramStep(p, prog);
    AsWrittenStep(p, Boxes(prog));
    if p.cur.kind != Eof && ParseStatement(p).Done? && NextToken(ParseStatement(p).value.1).Done? {
      var parsed := ParseStatement(p).value;
      var q := NextToken(parsed.1).value;
      var b := parsed.0;
      AsWrittenAgrees(q, Keep(prog, b));
      if ParseProgramFrom(q, Keep(prog, b)).Done? && ParseProgramFrom(q, Keep(prog, b)).value.1.errors == p.errors {
        assert q.errors == p.errors;
        KeepBoxed(prog, b);
      }
    }
  }

  /** For a whole input, the code as written and the intended loop both finish or
      both diverge, with the same errors; without errors, they build the same
      program. */
  lemma ParseAsWrittenAgrees(input: string)
    ensures Parse(input).Done? <==> ParseAsWritten(input).Done?
    ensures Parse(input).Done? ==> ParseAsWritten(input).value.1 == Parse(input).value.1
    ensures Parse(input).Done? && Parse(input).value.1 == [] ==>
      ParseAsWritten(input) == Done((Boxes(Parse(input).value.0), []))
  {
    var l := Lexing.New(input);
    if New(l).Done? {
      var p := New(l).value;
      SameSteps(p, Program([], []), BoxedProgram([], []));
      AsWrittenAgrees(p, Program([], []));
      assert Boxes(Program([], [])) == BoxedProgram([], []);
    }
  }

  /** As written, a `FROM` without a word after it leaves a nil `*FromStatement` as the
      first statement of the program, beside the error it records. */
  lemma FailedStatementKept(p: Parser)
    requires Valid(p) && p.cur.kind == From && p.peek.kind != Expr
    ensures ParseProgramAsWrittenFrom(p, BoxedProgram([], [])).Done? ==>
      var r := ParseProgramAsWrittenFrom(p, BoxedProgram([], [])).value;
      && 0 < |r.0.statements| && r.0.statements[0] == Boxed(From, None)
      && |p.errors| < |r.1.errors| && r.1.errors[|p.errors|] == ParseError(Expr, p.peek.kind)
  {
    var q := PeekError(p, Expr);
    assert ParseFromStatement(p) == Done((None, q));
    assert ParseStatement(p) == Done((Some(Boxed(From, None)), q));
    AsWrittenStep(p, BoxedProgram([], []));
    if NextToken(q).Done? {
      var prog := KeepAsWritten(BoxedProgram([], []), Some(Boxed(From, None)));
      assert prog.statements == [Boxed(From, None)];
      var n := NextToken(q).value;
      assert n.errors == q.errors;
      assert ParseProgramAsWrittenFrom(p, BoxedProgram([], [])) == ParseProgramAsWrittenFrom(n, prog);
    }
  }

  /** With failed statements dropped, the same line contributes nothing to the
      program: parsing goes on from the token after `FROM`, one error recorded. */
  lemma FailedStatementDropped(p: Parser)
    requires Valid(p) && p.cur.kind == From && p.peek.kind != Expr
    ensures NextToken(PeekError(p, Expr)).Diverges? ==> ParseProgram(p).Diverges?
    ensures NextToken(PeekError(p, Expr)).Done? ==>
      var q := NextToken(PeekError(p, Expr)).value;
      && q.errors == p.errors + [ParseError(Expr, p.peek.kind)]
      && ParseProgram(p) == ParseProgramFrom(q, Program([], []))
  {
    assert ParseStatement(p) == Done((Some(Boxed(From, None)), PeekError(p, Expr)));
  }
}
