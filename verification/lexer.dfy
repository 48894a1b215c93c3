/** The lexer: one forward scan over the input text producing tokens on demand.
    The input is a sequence of characters; the Go decoder's error rune U+FFFD,
    which the lexer reads as end of input, is returned past the last character
    and is also what a literal U+FFFD in the input reads as. */
module Lexing {
  import opened Outcomes
  import opened Tokens

  /** The rune the lexer reads as end of input. */
  const Sentinel: char := '\U{FFFD}'

  /** Lexer state: the input, the offset of the current character, the line
      counter and the offset where the current line starts. */
  datatype Lexer = Lexer(input: string, pos: nat, line: nat, lineStart: int)

  /** One step of the lexer: the token read and the state after it. */
  datatype Lexed = Lexed(tok: Token, next: Lexer)

  function New(input: string): Lexer {
    Lexer(input, 0, 0, 0)
  }

  /** The character at offset `i`, or the sentinel past the end. */
  function RuneAt(s: string, i: nat): char {
    if i < |s| then s[i] else Sentinel
  }

  /** The current character. */
  function Cur(l: Lexer): char {
    RuneAt(l.input, l.pos)
  }

  /** The character after the current one, without consuming anything. */
  function PeekRune(l: Lexer): char {
    RuneAt(l.input, l.pos + 1)
  }

  /** Consumes the current character. */
  function ReadRune(l: Lexer): Lexer {
    l.(pos := l.pos + 1)
  }

  predicate IsBlank(c: char) {
    c == ' ' || c == '\t' || c == '\r'
  }

  /** The number of occurrences of `c` in `s`. */
  function Occurrences(s: string, c: char): nat {
    if |s| == 0 then 0 else (if s[0] == c then 1 else 0) + Occurrences(s[1..], c)
  }

  /** Bounds the remaining work of a scan that stops at the end of the input. */
  function Left(l: Lexer): nat {
    if l.pos <= |l.input| then |l.input| - l.pos else 0
  }

  /** A character that whitespace skipping may discard: a blank, any backslash,
      or a newline directly after a backslash. */
  predicate Skippable(s: string, i: nat)
    requires i < |s|
  {
    IsBlank(s[i]) || s[i] == '\\' || (s[i] == '\n' && 0 < i && s[i - 1] == '\\')
  }

  /** The state after one step of whitespace skipping: a backslash right
      before a newline also consumes the newline as a line continuation and
      counts the line; anything else is consumed alone. */
  function SkipStep(l: Lexer): Lexer {
    if Cur(l) == '\\' && PeekRune(l) == '\n' then
      l.(pos := l.pos + 2, line := l.line + 1, lineStart := l.pos + 2)
    else
      ReadRune(l)
  }

  /** Skips blanks and every backslash, line continuations included. */
  function SkipWhitespace(l: Lexer): (r: Lexer)
    ensures r.input == l.input && l.pos <= r.pos && l.line <= r.line
    ensures !IsBlank(Cur(r)) && Cur(r) != '\\'
    ensures l.pos >= |l.input| ==> r == l
    ensures l.pos <= |l.input| ==> r.pos <= |l.input|
    decreases Left(l)
  {
    if IsBlank(Cur(l)) || Cur(l) == '\\' then SkipWhitespace(SkipStep(l)) else l
  }

  /** Whitespace skipping discards only blanks, backslashes and newlines that
      follow a backslash, and never a newline it starts on. */
  lemma {:induction false} SkipWhitespaceDiscards(l: Lexer)
    ensures forall i | l.pos <= i < SkipWhitespace(l).pos :: i < |l.input| && Skippable(l.input, i)
    ensures l.pos < SkipWhitespace(l).pos ==> l.input[l.pos] != '\n'
    decreases Left(l)
  {
    if IsBlank(Cur(l)) || Cur(l) == '\\' {
      SkipWhitespaceDiscards(SkipStep(l));
    }
  }

  lemma OccurrencesCons(c: char, t: string, x: char)
    ensures Occurrences([c] + t, x) == (if c == x then 1 else 0) + Occurrences(t, x)
  {
    assert ([c] + t)[1..] == t;
  }

  /** Counting in a slice from its first character. */
  lemma OccurrencesFrom(s: string, a: nat, e: nat, x: char)
    requires a < e <= |s|
    ensures Occurrences(s[a..e], x) == (if s[a] == x then 1 else 0) + Occurrences(s[a + 1..e], x)
  {
    assert s[a..e] == [s[a]] + s[a + 1..e];
    OccurrencesCons(s[a], s[a + 1..e], x);
  }

  /** Whitespace skipping counts one line per newline it consumes. */
  lemma {:induction false} SkipWhitespaceCountsLines(l: Lexer)
    requires l.pos <= |l.input|
    ensures SkipWhitespace(l).line == l.line + Occurrences(l.input[l.pos..SkipWhitespace(l).pos], '\n')
    decreases Left(l)
  {
    if IsBlank(Cur(l)) || Cur(l) == '\\' {
      var l' := SkipStep(l);
      SkipWhitespaceCountsLines(l');
      var e := SkipWhitespace(l').pos;
      OccurrencesFrom(l.input, l.pos, e, '\n');
      if l'.pos == l.pos + 2 {
        OccurrencesFrom(l.input, l.pos + 1, e, '\n');
      }
    }
  }

  /** When whitespace skipping counted no line, it consumed no newline and the
      line start is unchanged. When it counted one, the line start is just after
      the last newline it consumed, which followed a backslash. */
  lemma {:induction false} SkipWhitespaceLineStart(l: Lexer)
    ensures var r := SkipWhitespace(l);
      r.line == l.line ==>
        && r.lineStart == l.lineStart
        && (l.pos <= |l.input| ==> '\n' !in l.input[l.pos..r.pos])
    ensures var r := SkipWhitespace(l);
      r.line != l.line ==>
        && l.pos + 2 <= r.lineStart <= r.pos <= |l.input|
        && l.input[r.lineStart - 2] == '\\' && l.input[r.lineStart - 1] == '\n'
        && '\n' !in l.input[r.lineStart..r.pos]
    decreases Left(l)
  {
    if IsBlank(Cur(l)) || Cur(l) == '\\' {
      var l' := SkipStep(l);
      SkipWhitespaceLineStart(l');
      var r := SkipWhitespace(l');
      if l'.line == l.line {
        assert l.input[l.pos..r.pos] == [l.input[l.pos]] + l.input[l'.pos..r.pos];
      }
    }
  }

  /** Whether the current character may continue an expression word. A backslash
      directly followed by a space is an escaped space: the probe consumes the
      backslash, so that the caller's next read consumes the space. */
  function IsValidExprRune(l: Lexer): (bool, Lexer) {
    var c := Cur(l);
    if IsBlank(c) || c == '\n' || c == Sentinel then (false, l)
    else if c == '\\' then
      if PeekRune(l) == ' ' then (true, ReadRune(l)) else (false, l)
    else (true, l)
  }

  /** An expression word cannot continue at offset `i`: there is a blank, a newline
      or the end of input, or a backslash that does not escape a space. */
  predicate WordEndsAt(s: string, i: nat) {
    var c := RuneAt(s, i);
    IsBlank(c) || c == '\n' || c == Sentinel || (c == '\\' && RuneAt(s, i + 1) != ' ')
  }

  /** The shape of an expression word at index `i`: no tab, CR, newline or
      sentinel; a space only right after a backslash; a backslash only right
      before a space. */
  predicate WordCharAt(w: string, i: nat)
    requires i < |w|
  {
    && w[i] != '\t' && w[i] != '\r' && w[i] != '\n' && w[i] != Sentinel
    && (w[i] == ' ' ==> 0 < i && w[i - 1] == '\\')
    && (w[i] == '\\' ==> i + 1 < |w| && w[i + 1] == ' ')
  }

  /** A run of characters that may form an expression word, escaped spaces included. */
  predicate IsWord(w: string) {
    forall i | 0 <= i < |w| :: WordCharAt(w, i)
  }

  lemma WordCons(c: char, t: string)
    requires IsWord(t)
    requires !IsBlank(c) && c != '\n' && c != Sentinel && c != '\\'
    ensures IsWord([c] + t)
  {
    var w := [c] + t;
    forall i | 0 <= i < |w| ensures WordCharAt(w, i) {
      if 0 < i {
        assert w[i] == t[i - 1];
        assert WordCharAt(t, i - 1);
      }
    }
  }

  lemma WordConsEscapedSpace(t: string)
    requires IsWord(t)
    ensures IsWord(['\\', ' '] + t)
  {
    var w := ['\\', ' '] + t;
    forall i | 0 <= i < |w| ensures WordCharAt(w, i) {
      if 1 < i {
        assert w[i] == t[i - 2];
        assert WordCharAt(t, i - 2);
      }
    }
  }

  /** A word character, or an escaped space, in front of a word makes a longer word. */
  lemma WordGrows(s: string, a: nat, b: nat, e: nat)
    requires a < b <= e <= |s| && IsWord(s[b..e])
    requires
      || (b == a + 1 && !IsBlank(s[a]) && s[a] != '\n' && s[a] != Sentinel && s[a] != '\\')
      || (b == a + 2 && s[a] == '\\' && s[a + 1] == ' ')
    ensures IsWord(s[a..e])
  {
    if b == a + 1 {
      assert s[a..e] == [s[a]] + s[b..e];
      WordCons(s[a], s[b..e]);
    } else {
      assert s[a..e] == ['\\', ' '] + s[b..e];
      WordConsEscapedSpace(s[b..e]);
    }
  }

  /** The scanning loop of `readExpression`: consumes the maximal expression word. */
  function ScanExpr(l: Lexer): (r: Lexer)
    ensures r.input == l.input && l.pos <= r.pos
    ensures r.line == l.line && r.lineStart == l.lineStart
    ensures l.pos <= |l.input| ==> r.pos <= |l.input| && IsWord(l.input[l.pos..r.pos])
    ensures WordEndsAt(l.input, r.pos)
    ensures IsValidExprRune(l).0 ==> l.pos < r.pos
    decreases Left(l)
  {
    var (ok, at) := IsValidExprRune(l);
    if ok then
      var r := ScanExpr(ReadRune(at));
      WordGrows(l.input, l.pos, at.pos + 1, r.pos);
      r
    else
      at
  }

  /** Reads an expression word starting at the current character. */
  function ReadExpression(l: Lexer): (r: (string, Lexer))
    requires l.pos <= |l.input|
    ensures r.1.input == l.input && l.pos <= r.1.pos <= |l.input|
    ensures r.0 == l.input[l.pos..r.1.pos] && IsWord(r.0) && WordEndsAt(l.input, r.1.pos)
    ensures r.1.line == l.line && r.1.lineStart == l.lineStart
  {
    var e := ScanExpr(l);
    (l.input[l.pos..e.pos], e)
  }

  /** No word boundary lies strictly inside a word. */
  lemma NoBoundaryInsideWord(s: string, start: nat, e1: nat, e2: nat)
    requires start <= e1 < e2 <= |s|
    requires IsWord(s[start..e1]) && IsWord(s[start..e2])
    ensures !WordEndsAt(s, e1)
  {
    var w1, w2 := s[start..e1], s[start..e2];
    var k := e1 - start;
    assert w2[k] == s[e1] && WordCharAt(w2, k);
    if 0 < k {
      assert w1[k - 1] == s[e1 - 1] && WordCharAt(w1, k - 1);
    }
  }

  /** A word starting at a given offset has only one possible end. */
  lemma WordEndUnique(s: string, start: nat, e1: nat, e2: nat)
    requires start <= e1 <= |s| && start <= e2 <= |s|
    requires IsWord(s[start..e1]) && WordEndsAt(s, e1)
    requires IsWord(s[start..e2]) && WordEndsAt(s, e2)
    ensures e1 == e2
  {
    if e1 < e2 {
      NoBoundaryInsideWord(s, start, e1, e2);
    } else if e2 < e1 {
      NoBoundaryInsideWord(s, start, e2, e1);
    }
  }

  /** The word read is the only one that starts at the current character and ends
      at a boundary: `ScanExpr` finds exactly the maximal word. */
  lemma ScanExprIsMaximal(l: Lexer, e: nat)
    requires l.pos <= e <= |l.input|
    requires IsWord(l.input[l.pos..e]) && WordEndsAt(l.input, e)
    ensures ScanExpr(l).pos == e
  {
    WordEndUnique(l.input, l.pos, ScanExpr(l).pos, e);
  }

  /** The scanning loop of `readString`: stops on the delimiter. Past the end of
      the input the current character stays the sentinel, so without a delimiter
      the Go loop never ends. */
  function ScanTo(l: Lexer, del: char): (r: Halting<Lexer>)
    requires del != Sentinel
    ensures r.Done? ==>
      && r.value == l.(pos := r.value.pos)
      && l.pos <= r.value.pos < |l.input| && l.input[r.value.pos] == del
      && forall j | l.pos <= j < r.value.pos :: l.input[j] != del
    decreases Left(l)
  {
    if Cur(l) == del then Done(l)
    else if l.pos >= |l.input| then Diverges
    else ScanTo(ReadRune(l), del)
  }

  /** The scan ends exactly when the delimiter occurs at or after the current offset. */
  lemma {:induction false} ScanToEnds(l: Lexer, del: char)
    requires del != Sentinel
    ensures ScanTo(l, del).Done? <==> exists j :: l.pos <= j < |l.input| && l.input[j] == del
    decreases Left(l)
  {
    if Cur(l) == del {
      assert l.input[l.pos] == del;
    } else if l.pos < |l.input| {
      ScanToEnds(ReadRune(l), del);
      if exists j :: l.pos <= j < |l.input| && l.input[j] == del {
        var j :| l.pos <= j < |l.input| && l.input[j] == del;
        assert j != l.pos;
      }
    }
  }

  /** Reads a quoted string whose opening delimiter is the current character: the
      text up to the next occurrence of the same delimiter, with no escapes. The
      result leaves the closing delimiter as the current character. */
  function ReadString(l: Lexer, del: char): (r: Halting<(string, Lexer)>)
    requires del != Sentinel
    ensures r.Done? ==>
      var (lit, close) := r.value;
      && close == l.(pos := close.pos)
      && l.pos < close.pos < |l.input| && l.input[close.pos] == del
      && lit == l.input[l.pos + 1..close.pos] && del !in lit
  {
    var open := ReadRune(l);
    var close :- ScanTo(open, del);
    Done((l.input[open.pos..close.pos], close))
  }

  /** Reading a string runs forever exactly when the delimiter does not occur again. */
  lemma ReadStringDiverges(l: Lexer, del: char)
    requires del != Sentinel
    ensures ReadString(l, del).Diverges? <==> forall j | l.pos < j < |l.input| :: l.input[j] != del
  {
    ScanToEnds(ReadRune(l), del);
  }

  /** The one-character tokens and their categories. */
  function Punctuation(c: char): Option<Kind> {
    match c
    case '#' => Some(Comment)
    case '[' => Some(LBracket)
    case ']' => Some(RBracket)
    case ',' => Some(Comma)
    case '\n' => Some(Eol)
    case _ => None
  }

  predicate IsQuote(c: char) {
    c == '"' || c == '\''
  }

  /** Reads a quoted-string token whose opening quote is the current character;
      both quotes are consumed. */
  function LexQuoted(w: Lexer): (r: Halting<Lexed>)
    requires IsQuote(Cur(w))
    ensures r.Done? ==>
      var tok := r.value.tok;
      var next := r.value.next;
      && next == w.(pos := next.pos)
      && tok.kind == Str && w.pos < next.pos - 1 && next.pos <= |w.input|
      && w.input[next.pos - 1] == Cur(w)
      && tok.literal == w.input[w.pos + 1..next.pos - 1] && Cur(w) !in tok.literal
  {
    var quoted :- ReadString(w, Cur(w));
    Done(Lexed(Token(Str, quoted.0), ReadRune(quoted.1)))
  }

  /** Reads an expression word starting at the current character and classifies it
      through the keyword table. */
  function LexWord(w: Lexer): (r: Lexed)
    requires w.pos <= |w.input|
    ensures r.next == w.(pos := r.next.pos) && w.pos <= r.next.pos <= |w.input|
    ensures r.tok.literal == w.input[w.pos..r.next.pos]
    ensures IsWord(r.tok.literal) && WordEndsAt(w.input, r.next.pos)
    ensures r.tok.kind == LookupIdent(r.tok.literal)
  {
    var (lit, e) := ReadExpression(w);
    Lexed(Token(LookupIdent(lit), lit), e)
  }

  /** Reads the next token. Whitespace and line continuations are skipped first;
      the character then reached decides the token. A quoted string without its
      closing delimiter makes the Go loop run forever, which is `Diverges`. */
  function NextToken(l: Lexer): (r: Halting<Lexed>)
    ensures r.Done? ==> r.value.next.input == l.input && l.pos < r.value.next.pos
    ensures r.Done? ==> r.value.tok.kind != Illegal
    ensures r.Done? && r.value.tok.kind != Eof ==> r.value.next.pos <= |l.input|
    ensures r.Done? && l.pos <= |l.input| ==> r.value.next.pos <= |l.input| + 1
  {
    var w := SkipWhitespace(l);
    var c := Cur(w);
    if c == '#' then
      Done(Lexed(Token(Comment, [c]), ReadRune(w)))
    else if c == '[' then
      Done(Lexed(Token(LBracket, [c]), ReadRune(w)))
    else if c == ']' then
      Done(Lexed(Token(RBracket, [c]), ReadRune(w)))
    else if c == '"' || c == '\'' then
      LexQuoted(w)
    else if c == '\n' then
      Done(Lexed(Token(Eol, [c]), ReadRune(w.(line := w.line + 1, lineStart := w.pos + 1))))
    else if c == ',' then
      Done(Lexed(Token(Comma, [c]), ReadRune(w)))
    else if c == Sentinel then
      Done(Lexed(Token(Eof, ""), ReadRune(w)))
    else
      var (valid, at) := IsValidExprRune(w);
      if valid then
        Done(LexWord(at))
      else
        Done(Lexed(Token(Illegal, [c]), ReadRune(w)))
  }

  /** Reading a token runs forever exactly when it starts with a quote that is
      never closed. */
  lemma NextTokenDiverges(l: Lexer)
    ensures NextToken(l).Diverges? <==>
      var w := SkipWhitespace(l);
      IsQuote(Cur(w)) && forall j | w.pos < j < |l.input| :: l.input[j] != Cur(w)
  {
    var w := SkipWhitespace(l);
    if IsQuote(Cur(w)) {
      DispatchQuote(l);
      ReadStringDiverges(w, Cur(w));
    }
  }

  /** At the end of input (or on a literal U+FFFD) the token is EOF with an empty
      literal, and only the sentinel is consumed. */
  lemma LexEnd(l: Lexer)
    requires Cur(SkipWhitespace(l)) == Sentinel
    ensures NextToken(l) == Done(Lexed(Token(Eof, ""), ReadRune(SkipWhitespace(l))))
  {
  }

  /** Once the input is used up, every call returns EOF. */
  lemma {:induction false} EofForever(l: Lexer)
    requires |l.input| <= l.pos
    ensures NextToken(l) == Done(Lexed(Token(Eof, ""), ReadRune(l)))
    ensures |l.input| <= NextToken(l).value.next.pos
  {
  }

  /** `#`, `[`, `]`, `,` and newline each give a one-character token. A newline
      token counts the line and starts the next line just after it. */
  lemma LexPunctuation(l: Lexer)
    requires Punctuation(Cur(SkipWhitespace(l))).Some?
    ensures
      var w := SkipWhitespace(l);
      var c := Cur(w);
      && NextToken(l).Done?
      && NextToken(l).value.tok == Token(Punctuation(c).value, [c])
      && NextToken(l).value.next.pos == w.pos + 1
      && (c != '\n' ==> NextToken(l).value.next == ReadRune(w))
      && (c == '\n' ==> NextToken(l).value.next == w.(pos := w.pos + 1, line := w.line + 1, lineStart := w.pos + 1))
  {
  }

  lemma DispatchQuote(l: Lexer)
    requires IsQuote(Cur(SkipWhitespace(l)))
    ensures NextToken(l) == LexQuoted(SkipWhitespace(l))
  {
  }

  lemma DispatchWord(l: Lexer)
    requires
      var c := Cur(SkipWhitespace(l));
      Punctuation(c).None? && !IsQuote(c) && c != Sentinel
    ensures NextToken(l) == Done(LexWord(SkipWhitespace(l)))
  {
    var w := SkipWhitespace(l);
    assert IsValidExprRune(w) == (true, w);
  }

  /** A quoted string is the text strictly between the opening quote and the next
      identical quote, verbatim; both quotes are consumed and newlines inside are
      not counted. */
  lemma LexQuotedString(l: Lexer)
    requires IsQuote(Cur(SkipWhitespace(l))) && NextToken(l).Done?
    ensures
      var w := SkipWhitespace(l);
      var c := Cur(w);
      var tok := NextToken(l).value.tok;
      var next := NextToken(l).value.next;
      && next == w.(pos := next.pos)
      && tok.kind == Str && w.pos < next.pos - 1 && l.input[next.pos - 1] == c
      && tok.literal == l.input[w.pos + 1..next.pos - 1] && c !in tok.literal
  {
    DispatchQuote(l);
  }

  /** Any other character starts an expression word: the maximal word from there,
      classified through the keyword table. */
  lemma LexExpression(l: Lexer)
    requires
      var c := Cur(SkipWhitespace(l));
      Punctuation(c).None? && !IsQuote(c) && c != Sentinel
    ensures
      var w := SkipWhitespace(l);
      && NextToken(l).Done?
      && var tok := NextToken(l).value.tok;
      var next := NextToken(l).value.next;
      && next == w.(pos := next.pos)
      && 0 < |tok.literal| && tok.literal == l.input[w.pos..next.pos]
      && IsWord(tok.literal) && WordEndsAt(l.input, next.pos)
      && tok.kind == LookupIdent(tok.literal)
  {
    var w := SkipWhitespace(l);
    DispatchWord(l);
    assert IsValidExprRune(w) == (true, w);
    assert ScanExpr(w).pos > w.pos;
  }

  /** The first `n` tokens read from `l`, as successive `NextToken` calls return them. */
  function TakeTokens(l: Lexer, n: nat): (r: Halting<seq<Token>>)
    decreases n
    ensures r.Done? ==> |r.value| == n
  {
    if n == 0 then Done([])
    else
      var step :- NextToken(l);
      var rest :- TakeTokens(step.next, n - 1);
      Done([step.tok] + rest)
  }

  /** Once the input is used up, every further token is EOF. */
  lemma {:induction false} TokensAfterEnd(l: Lexer, n: nat)
    requires |l.input| <= l.pos
    ensures TakeTokens(l, n).Done?
    ensures forall i | 0 <= i < n :: TakeTokens(l, n).value[i] == Token(Eof, "")
    decreases n
  {
    if n > 0 {
      EofForever(l);
      TokensAfterEnd(ReadRune(l), n - 1);
      assert TakeTokens(l, n) == Done([Token(Eof, "")] + TakeTokens(ReadRune(l), n - 1).value);
    }
  }

  /** Whitespace skipping from `l` may discard everything before `e` and must stop
      at `e`: the stretch holds only what may be skipped, does not start with a
      newline, and is followed by a character that may not be skipped. */
  predicate SkipsTo(l: Lexer, e: nat) {
    && l.pos <= e <= |l.input|
    && (forall i | l.pos <= i < e :: Skippable(l.input, i))
    && (l.pos < e ==> l.input[l.pos] != '\n')
    && !IsBlank(RuneAt(l.input, e)) && RuneAt(l.input, e) != '\\'
    && (l.pos < e && RuneAt(l.input, e) == '\n' ==> l.input[e - 1] != '\\')
  }

  /** One step of whitespace skipping keeps a skippable stretch skippable. */
  lemma SkipsToStep(l: Lexer, e: nat)
    requires SkipsTo(l, e) && l.pos < e
    ensures SkipsTo(SkipStep(l), e) && SkipWhitespace(l) == SkipWhitespace(SkipStep(l))
    ensures SkipStep(l).pos == l.pos + 1 || (l.pos + 1 < e && l.input[l.pos + 1] == '\n')
  {
    assert Skippable(l.input, l.pos);
    var n := SkipStep(l);
    if n.pos < e {
      assert Skippable(l.input, n.pos);
    }
  }

  /** The converse of `SkipWhitespaceDiscards`: when everything up to `e` may be
      discarded and `e` may not, whitespace skipping stops exactly at `e`. */
  lemma {:induction false} SkipWhitespaceStopsAt(l: Lexer, e: nat)
    requires SkipsTo(l, e)
    ensures SkipWhitespace(l).pos == e
    decreases e - l.pos
  {
    if l.pos < e {
      SkipsToStep(l, e);
      SkipWhitespaceStopsAt(SkipStep(l), e);
    }
  }

  /** When no newline is crossed, only the offset changes. */
  lemma {:induction false} SkipWhitespaceNoLine(l: Lexer, e: nat)
    requires SkipsTo(l, e)
    requires forall i | l.pos <= i < e :: l.input[i] != '\n'
    ensures SkipWhitespace(l) == l.(pos := e)
    decreases e - l.pos
  {
    if l.pos < e {
      SkipsToStep(l, e);
      SkipWhitespaceNoLine(SkipStep(l), e);
    }
  }

  /** When exactly one newline, at `k`, is crossed, one line is counted and the
      line starts after it. */
  lemma {:induction false} SkipWhitespaceOneLine(l: Lexer, e: nat, k: nat)
    requires SkipsTo(l, e)
    requires l.pos <= k < e && l.input[k] == '\n'
    requires forall i | l.pos <= i < e && i != k :: l.input[i] != '\n'
    ensures SkipWhitespace(l) == l.(pos := e, line := l.line + 1, lineStart := k + 1)
    decreases e - l.pos
  {
    SkipsToStep(l, e);
    var n := SkipStep(l);
    if n.pos == l.pos + 1 {
      SkipWhitespaceOneLine(n, e, k);
    } else {
      SkipWhitespaceNoLine(n, e);
    }
  }

  /** Reading a word whose extent is known: whitespace skipping reaches `w`, and
      the word runs from there to `e`. */
  lemma WordAt(l: Lexer, w: Lexer, e: nat)
    requires SkipWhitespace(l) == w
    requires w.pos < e <= |w.input|
    requires Punctuation(w.input[w.pos]).None? && !IsQuote(w.input[w.pos]) && w.input[w.pos] != Sentinel
    requires IsWord(w.input[w.pos..e]) && WordEndsAt(w.input, e)
    ensures NextToken(l) == Done(Lexed(Token(LookupIdent(w.input[w.pos..e]), w.input[w.pos..e]), w.(pos := e)))
  {
    LexExpression(l);
    WordEndUnique(w.input, w.pos, NextToken(l).value.next.pos, e);
  }

  /** `WordAt` with the word's text given: the token's literal and kind are
      those of `lit`. */
  lemma WordTextAt(l: Lexer, w: Lexer, e: nat, lit: string, tok: Token, next: Lexer)
    requires SkipWhitespace(l) == w
    requires w.pos < e <= |w.input| && w.input[w.pos..e] == lit
    requires Punctuation(lit[0]).None? && !IsQuote(lit[0]) && lit[0] != Sentinel
    requires IsWord(lit) && WordEndsAt(w.input, e)
    requires tok == Token(LookupIdent(lit), lit) && next == w.(pos := e)
    ensures NextToken(l) == Done(Lexed(tok, next))
  {
    assert w.input[w.pos] == lit[0];
    WordAt(l, w, e);
  }

  /** Reading a one-character token once whitespace skipping reaches `w`. */
  lemma PunctuationAt(l: Lexer, w: Lexer, tok: Token, next: Lexer)
    requires SkipWhitespace(l) == w
    requires w.pos < |w.input| && Punctuation(w.input[w.pos]).Some? && w.input[w.pos] != '\n'
    requires tok == Token(Punctuation(w.input[w.pos]).value, [w.input[w.pos]]) && next == w.(pos := w.pos + 1)
    ensures NextToken(l) == Done(Lexed(tok, next))
  {
    LexPunctuation(l);
  }

  /** Reading a newline token once whitespace skipping reaches `w`. */
  lemma NewlineAt(l: Lexer, w: Lexer, tok: Token, next: Lexer)
    requires SkipWhitespace(l) == w
    requires w.pos < |w.input| && w.input[w.pos] == '\n'
    requires tok == Token(Eol, "\n") && next == w.(pos := w.pos + 1, line := w.line + 1, lineStart := w.pos + 1)
    ensures NextToken(l) == Done(Lexed(tok, next))
  {
    LexPunctuation(l);
  }

  /** Reading a quoted string whose closing quote is at `close`. */
  lemma QuotedAt(l: Lexer, w: Lexer, close: nat, tok: Token, next: Lexer)
    requires SkipWhitespace(l) == w
    requires w.pos < close < |w.input| && IsQuote(w.input[w.pos]) && w.input[close] == w.input[w.pos]
    requires forall j | w.pos < j < close :: w.input[j] != w.input[w.pos]
    requires tok == Token(Str, w.input[w.pos + 1..close]) && next == w.(pos := close + 1)
    ensures NextToken(l) == Done(Lexed(tok, next))
  {
    assert !(forall j | w.pos < j < |w.input| :: w.input[j] != w.input[w.pos]) by {
      assert w.input[close] == w.input[w.pos];
    }
    NextTokenDiverges(l);
    LexQuotedString(l);
    var next := NextToken(l).value.next;
    assert next.pos - 1 == close;
  }

  /** Reading end of input once whitespace skipping reaches `w`. */
  lemma EndAt(l: Lexer, w: Lexer)
    requires SkipWhitespace(l) == w
    requires |w.input| <= w.pos
    ensures NextToken(l) == Done(Lexed(Token(Eof, ""), w.(pos := w.pos + 1)))
  {
    LexEnd(l);
  }

  /** Unfolds `TakeTokens` by one known step. */
  lemma TakeStep(l: Lexer, n: nat, t: Token, next: Lexer, rest: seq<Token>)
    requires NextToken(l) == Done(Lexed(t, next))
    requires TakeTokens(next, n) == Done(rest)
    ensures TakeTokens(l, n + 1) == Done([t] + rest)
  {
  }

  /** Every token the lexer hands out is spelled as its category implies. */
  lemma NextTokenSpelled(l: Lexer)
    ensures NextToken(l).Done? ==> WellSpelled(NextToken(l).value.tok)
  {
    var w := SkipWhitespace(l);
    var c := Cur(w);
    if c == '#' {
      assert [c] == "#";
    } else if c != '[' && c != ']' && !IsQuote(c) && c != '\n' && c != ',' && c != Sentinel {
      var (valid, at) := IsValidExprRune(w);
      if valid {
        assert NextToken(l) == Done(LexWord(at));
      }
    }
  }
}
