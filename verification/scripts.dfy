/** Inputs described piece by piece. A script lists, for each token of an input,
    the whitespace before it and the text it is read from; the lexer reads a
    well-formed script as exactly the tokens the pieces name. Concrete inputs
    are then replayed by checking that their script is well formed. */
module Scripts {
  import opened Outcomes
  import opened Tokens
  import opened Lexing

  /** The whitespace before a token: blanks, or blanks around one line continuation. */
  datatype Gap = Plain(blanks: string) | Continued(before: string, after: string)

  /** One token's piece of the input: a word, a one-character mark (`#`, `[`,
      `]` or `,`), a newline, or a quoted string. */
  datatype Piece =
    | Word(gap: Gap, word: string)
    | Mark(gap: Gap, mark: char)
    | Newline(gap: Gap)
    | Quoted(gap: Gap, quote: char, body: string)

  /** An input as a list of pieces. */
  datatype Script = End | Then(first: Piece, rest: Script)

  function GapText(g: Gap): string {
    match g
    case Plain(b) => b
    case Continued(a, b) => a + "\\\n" + b
  }

  function Text(p: Piece): string {
    match p
    case Word(_, w) => w
    case Mark(_, c) => [c]
    case Newline(_) => "\n"
    case Quoted(_, q, body) => [q] + body + [q]
  }

  /** The token a piece is meant to be read as. */
  function TokenOf(p: Piece): Token {
    match p
    case Word(_, w) => Token(LookupIdent(w), w)
    case Mark(_, c) => Token(match Punctuation(c) case Some(k) => k case None => Illegal, [c])
    case Newline(_) => Token(Eol, "\n")
    case Quoted(_, _, body) => Token(Str, body)
  }

  /** The input a script spells out. */
  function Input(s: Script): string {
    match s
    case End => ""
    case Then(p, rest) => GapText(p.gap) + Text(p) + Input(rest)
  }

  /** The tokens a script names. */
  function Named(s: Script): (r: seq<Token>)
    ensures |r| == Length(s)
  {
    match s
    case End => []
    case Then(p, rest) => [TokenOf(p)] + Named(rest)
  }

  function Length(s: Script): nat {
    match s
    case End => 0
    case Then(_, rest) => 1 + Length(rest)
  }

  /** A piece the lexer reads as its token: the gap holds only whitespace, the
      text does not start with anything whitespace skipping would discard, a
      word is a well-formed word that is not read as another kind of token, and
      a quoted body does not contain its quote. */
  predicate ValidPiece(p: Piece) {
    var t := Text(p);
    && 0 < |t| && !IsBlank(t[0]) && t[0] != '\\' && ValidGap(p.gap, t[0])
    && (match p
        case Word(_, w) => IsWord(w) && Punctuation(w[0]).None? && !IsQuote(w[0]) && w[0] != Sentinel
        case Mark(_, c) => Punctuation(c).Some? && c != '\n'
        case Newline(_) => true
        case Quoted(_, q, body) => IsQuote(q) && q !in body)
  }

  /** Printable ASCII without backslashes: text that is a word as it stands. */
  predicate Printable(w: string) {
    forall i | 0 <= i < |w| :: '!' <= w[i] <= '~' && w[i] != '\\'
  }

  /** A word of printable characters that starts like no other token is a valid piece. */
  lemma PrintableWord(g: Gap, w: string)
    requires 0 < |w| && Printable(w) && ValidGap(g, w[0])
    requires Punctuation(w[0]).None? && !IsQuote(w[0])
    ensures ValidPiece(Word(g, w))
  {
    assert IsWord(w) by {
      forall i | 0 <= i < |w| ensures WordCharAt(w, i) { }
    }
  }

  /** Two printable runs joined by a backslash-escaped space form one word. */
  lemma EscapedSpaceWord(a: string, b: string)
    requires 0 < |a| && Printable(a) && Printable(b)
    ensures IsWord(a + "\\ " + b)
  {
    var w := a + "\\ " + b;
    forall i | 0 <= i < |w| ensures WordCharAt(w, i) {
      if i < |a| {
        assert w[i] == a[i];
      } else if |a| + 1 < i {
        assert w[i] == b[i - |a| - 2];
      }
    }
  }

  /** A quoted piece is valid when its body never repeats the quote. */
  lemma QuotedPiece(g: Gap, q: char, body: string)
    requires IsQuote(q) && ValidGap(g, q) && q !in body
    ensures ValidPiece(Quoted(g, q, body))
  {
  }

  /** The same for a body given in two halves. */
  lemma QuotedHalves(g: Gap, q: char, a: string, b: string)
    requires IsQuote(q) && ValidGap(g, q) && q !in a && q !in b
    ensures ValidPiece(Quoted(g, q, a + b))
  {
    assert forall c :: c in a + b <==> c in a || c in b;
  }

  /** The piece starts with a character that ends a preceding word. */
  predicate EndsWord(p: Piece) {
    0 < |GapText(p.gap)| || p.Newline?
  }

  /** Every piece is well formed and every word is followed by a piece that ends it;
      `wordAtEnd` says whether the script may end with a word. */
  predicate Valid(s: Script, wordAtEnd: bool) {
    match s
    case End => true
    case Then(p, rest) =>
      && ValidPiece(p)
      && (p.Word? ==> if rest.End? then wordAtEnd else EndsWord(rest.first))
      && Valid(rest, wordAtEnd)
  }

  lemma AppendAssoc<T>(a: seq<T>, b: seq<T>, c: seq<T>)
    ensures a + (b + c) == a + b + c
  {
  }

  /** The pieces `ps`, in order, in front of `r`. */
  function Prefix(ps: seq<Piece>, r: Script): (s: Script)
    ensures Length(s) == |ps| + Length(r)
    decreases |ps|
  {
    if ps == [] then r else Then(ps[0], Prefix(ps[1..], r))
  }

  /** Valid pieces naming the tokens `ts`, each word ended by the piece after it. */
  predicate ValidRun(ps: seq<Piece>, ts: seq<Token>) {
    && |ps| == |ts|
    && (forall i | 0 <= i < |ps| :: ValidPiece(ps[i]) && TokenOf(ps[i]) == ts[i])
    && (forall i | 0 <= i < |ps| - 1 :: ps[i].Word? ==> EndsWord(ps[i + 1]))
  }

  /** Two runs joined, the first one's last word ended by the second one's first piece. */
  lemma RunAppend(a: seq<Piece>, ta: seq<Token>, b: seq<Piece>, tb: seq<Token>)
    requires ValidRun(a, ta) && ValidRun(b, tb)
    requires 0 < |a| && a[|a| - 1].Word? ==> 0 < |b| && EndsWord(b[0])
    ensures ValidRun(a + b, ta + tb)
  {
    var ps, ts := a + b, ta + tb;
    forall i | 0 <= i < |ps| ensures ValidPiece(ps[i]) && TokenOf(ps[i]) == ts[i] {
      if i < |a| {
        assert ps[i] == a[i] && ts[i] == ta[i];
      } else {
        assert ps[i] == b[i - |a|] && ts[i] == tb[i - |a|];
      }
    }
    forall i | 0 <= i < |ps| - 1 ensures ps[i].Word? ==> EndsWord(ps[i + 1]) {
      if i + 1 < |a| {
        assert ps[i] == a[i] && ps[i + 1] == a[i + 1];
      } else if i + 1 == |a| {
        assert ps[i] == a[|a| - 1] && ps[i + 1] == b[0];
      } else {
        assert ps[i] == b[i - |a|] && ps[i + 1] == b[i + 1 - |a|];
      }
    }
  }

  /** A run in front of a valid script keeps it valid and adds its tokens in front. */
  lemma {:induction false} PrefixFacts(ps: seq<Piece>, ts: seq<Token>, r: Script, wordAtEnd: bool)
    requires ValidRun(ps, ts) && Valid(r, wordAtEnd)
    requires 0 < |ps| && ps[|ps| - 1].Word? ==> if r.End? then wordAtEnd else EndsWord(r.first)
    ensures Valid(Prefix(ps, r), wordAtEnd) && Named(Prefix(ps, r)) == ts + Named(r)
    decreases |ps|
  {
    if ps != [] {
      var ps', ts' := ps[1..], ts[1..];
      assert ValidRun(ps', ts') by {
        forall i | 0 <= i < |ps'| ensures ValidPiece(ps'[i]) && TokenOf(ps'[i]) == ts'[i] {
          assert ps'[i] == ps[i + 1] && ts'[i] == ts[i + 1];
        }
        forall i | 0 <= i < |ps'| - 1 ensures ps'[i].Word? ==> EndsWord(ps'[i + 1]) {
          assert ps'[i] == ps[i + 1] && ps'[i + 1] == ps[i + 2];
        }
      }
      PrefixFacts(ps', ts', r, wordAtEnd);
      var rest := Prefix(ps', r);
      assert ValidPiece(ps[0]) && TokenOf(ps[0]) == ts[0];
      assert ps' != [] ==> rest.first == ps'[0];
      assert Prefix(ps, r) == Then(ps[0], rest);
      assert ts == [ts[0]] + ts';
      AppendAssoc([ts[0]], ts', Named(r));
    }
  }

  /** A line: a run ending in its newline. */
  predicate ValidLine(ps: seq<Piece>, ts: seq<Token>) {
    ValidRun(ps, ts) && 0 < |ps| && ps[|ps| - 1].Newline?
  }

  /** Lines of pieces, one after another. */
  function Lines(ls: seq<seq<Piece>>): (s: Script)
    decreases |ls|
  {
    if ls == [] then End else Prefix(ls[0], Lines(ls[1..]))
  }

  /** Lists of tokens, one after another. */
  function Concat(tss: seq<seq<Token>>): (r: seq<Token>)
    decreases |tss|
  {
    if tss == [] then [] else tss[0] + Concat(tss[1..])
  }

  /** Concatenating from list `i` on: that list, then the ones after it. */
  lemma ConcatStep(tss: seq<seq<Token>>, i: nat)
    requires i < |tss|
    ensures Concat(tss[i..]) == tss[i] + Concat(tss[i + 1..])
  {
    assert tss[i..][1..] == tss[i + 1..];
  }

  /** Valid lines make a valid script naming their tokens in order. */
  lemma {:induction false} LinesFacts(ls: seq<seq<Piece>>, tss: seq<seq<Token>>)
    requires |ls| == |tss|
    requires forall i | 0 <= i < |ls| :: ValidLine(ls[i], tss[i])
    ensures Valid(Lines(ls), true) && Named(Lines(ls)) == Concat(tss)
    decreases |ls|
  {
    if ls != [] {
      var ls', tss' := ls[1..], tss[1..];
      forall i | 0 <= i < |ls'| ensures ValidLine(ls'[i], tss'[i]) {
        assert ls'[i] == ls[i + 1] && tss'[i] == tss[i + 1];
      }
      LinesFacts(ls', tss');
      assert ValidLine(ls[0], tss[0]);
      PrefixFacts(ls[0], tss[0], Lines(ls'), true);
    }
  }

  /** A gap holding only whitespace. */
  predicate ValidGap(g: Gap, next: char) {
    match g
    case Plain(b) => Blanks(b)
    case Continued(a, b) => Blanks(a) && Blanks(b) && next != '\n'
  }

  predicate Blanks(g: string) {
    forall i | 0 <= i < |g| :: IsBlank(g[i])
  }

  /** The line counter and line start once a gap placed at offset `d` is skipped. */
  function GapLines(g: Gap, d: nat, ln: nat, ls: int): (nat, int) {
    match g
    case Plain(_) => (ln, ls)
    case Continued(a, _) => (ln + 1, d + |a| + 2)
  }

  /** The line counter and line start once a piece placed at offset `d` is read. */
  function Stop(p: Piece, d: nat, ln: nat, ls: int): (nat, int) {
    var (ln', ls') := GapLines(p.gap, d, ln, ls);
    if p.Newline? then (ln' + 1, d + |GapText(p.gap)| + 1) else (ln', ls')
  }

  /** The line counter and line start after a script read from offset `d`. */
  function LinesAtEnd(s: Script, d: nat, ln: nat, ls: int): (nat, int) {
    match s
    case End => (ln, ls)
    case Then(p, rest) =>
      var stop := Stop(p, d, ln, ls);
      LinesAtEnd(rest, d + |GapText(p.gap) + Text(p)|, stop.0, stop.1)
  }

  /** `x` holds `t` at offset `d`. */
  predicate At(x: string, d: nat, t: string) {
    d + |t| <= |x| && forall i | 0 <= i < |t| :: x[d + i] == t[i]
  }

  lemma AtChar(x: string, d: nat, t: string, i: nat)
    requires At(x, d, t) && i < |t|
    ensures x[d + i] == t[i]
  {
  }

  /** `At` as an equation between a slice of `x` and `t`. */
  lemma AtSlice(x: string, d: nat, t: string)
    requires At(x, d, t)
    ensures x[d..d + |t|] == t
  {
    forall i | 0 <= i < |t| ensures x[d..d + |t|][i] == t[i] {
      AtChar(x, d, t, i);
    }
  }

  lemma AtSplit(x: string, d: nat, a: string, b: string)
    requires At(x, d, a + b)
    ensures At(x, d, a) && At(x, d + |a|, b)
  {
    forall i | 0 <= i < |a| ensures x[d + i] == a[i] {
      AtChar(x, d, a + b, i);
    }
    forall i | 0 <= i < |b| ensures x[d + |a| + i] == b[i] {
      AtChar(x, d, a + b, |a| + i);
    }
  }

  /** Whitespace skipping over blanks placed at offset `d` stops right after them. */
  lemma SkipBlanks(x: string, d: nat, b: string, ln: nat, ls: int)
    requires At(x, d, b) && Blanks(b) && d + |b| < |x|
    requires !IsBlank(x[d + |b|]) && x[d + |b|] != '\\'
    ensures SkipWhitespace(Lexer(x, d, ln, ls)) == Lexer(x, d + |b|, ln, ls)
  {
    forall i | d <= i < d + |b| ensures IsBlank(x[i]) {
      AtChar(x, d, b, i - d);
    }
    SkipWhitespaceNoLine(Lexer(x, d, ln, ls), d + |b|);
  }

  /** The characters of blanks around a line continuation placed at offset `d`:
      all may be skipped, and the only newline is the one after the backslash. */
  lemma ContinuedChars(x: string, d: nat, a: string, b: string)
    requires At(x, d, a + "\\\n" + b) && Blanks(a) && Blanks(b)
    ensures x[d + |a|] == '\\' && x[d + |a| + 1] == '\n'
    ensures forall i | d <= i < d + |a| + 2 + |b| :: Skippable(x, i)
    ensures forall i | d <= i < d + |a| + 2 + |b| && i != d + |a| + 1 :: x[i] != '\n'
  {
    var t := a + "\\\n" + b;
    var k := d + |a| + 1;
    AtChar(x, d, t, |a|);
    AtChar(x, d, t, |a| + 1);
    forall i | d <= i < d + |t| && i != k - 1 && i != k ensures IsBlank(x[i]) {
      AtChar(x, d, t, i - d);
      if i < k {
        assert t[i - d] == a[i - d];
      } else {
        assert t[i - d] == b[i - d - |a| - 2];
      }
    }
  }

  /** Whitespace skipping over blanks around a line continuation placed at offset
      `d` stops right after them, having counted one line. */
  lemma SkipContinued(x: string, d: nat, a: string, b: string, ln: nat, ls: int)
    requires At(x, d, a + "\\\n" + b) && Blanks(a) && Blanks(b)
    requires var e := d + |a| + 2 + |b|; e < |x| && !IsBlank(x[e]) && x[e] != '\\' && x[e] != '\n'
    ensures SkipWhitespace(Lexer(x, d, ln, ls)) == Lexer(x, d + |a| + 2 + |b|, ln + 1, d + |a| + 2)
  {
    var t := a + "\\\n" + b;
    var k := d + |a| + 1;
    ContinuedChars(x, d, a, b);
    SkipWhitespaceOneLine(Lexer(x, d, ln, ls), d + |t|, k);
  }

  /** Whitespace skipping from a gap placed at offset `d` stops right after it,
      counting the continuation. */
  lemma SkipGap(x: string, d: nat, g: Gap, ln: nat, ls: int)
    requires At(x, d, GapText(g)) && d + |GapText(g)| < |x|
    requires var c := x[d + |GapText(g)|]; !IsBlank(c) && c != '\\' && ValidGap(g, c)
    ensures SkipWhitespace(Lexer(x, d, ln, ls)) == Lexer(x, d + |GapText(g)|, GapLines(g, d, ln, ls).0, GapLines(g, d, ln, ls).1)
  {
    match g
    case Plain(b) =>
      SkipBlanks(x, d, b, ln, ls);
    case Continued(a, b) =>
      SkipContinued(x, d, a, b, ln, ls);
  }

  /** The characters after a piece that ends a word, placed at offset `e`, end it. */
  lemma EndsWordAt(x: string, e: nat, p: Piece)
    requires ValidPiece(p) && EndsWord(p) && At(x, e, GapText(p.gap) + Text(p))
    ensures WordEndsAt(x, e)
  {
    var t := GapText(p.gap) + Text(p);
    AtChar(x, e, t, 0);
    match p.gap
    case Plain(b) =>
      if 0 < |b| {
        assert t[0] == b[0];
      }
    case Continued(a, b) =>
      if 0 < |a| {
        assert t[0] == a[0];
      } else {
        AtChar(x, e, t, 1);
      }
  }

  /** The state after reading the piece placed at offset `d`. */
  function Past(x: string, d: nat, p: Piece, ln: nat, ls: int): Lexer {
    Lexer(x, d + |GapText(p.gap) + Text(p)|, Stop(p, d, ln, ls).0, Stop(p, d, ln, ls).1)
  }

  /** The state once whitespace skipping reaches the text of the piece at offset `d`. */
  function Reached(x: string, d: nat, p: Piece, ln: nat, ls: int): Lexer {
    Lexer(x, d + |GapText(p.gap)|, GapLines(p.gap, d, ln, ls).0, GapLines(p.gap, d, ln, ls).1)
  }

  /** Whitespace skipping before a well-formed piece reaches its text. */
  lemma ReachText(x: string, d: nat, p: Piece, ln: nat, ls: int)
    requires ValidPiece(p) && At(x, d, GapText(p.gap) + Text(p))
    ensures At(x, d + |GapText(p.gap)|, Text(p))
    ensures SkipWhitespace(Lexer(x, d, ln, ls)) == Reached(x, d, p, ln, ls)
  {
    var g, t := GapText(p.gap), Text(p);
    AtSplit(x, d, g, t);
    AtChar(x, d + |g|, t, 0);
    SkipGap(x, d, p.gap, ln, ls);
  }

  /** Past any piece but a newline, only the offset has moved on from where its
      text was reached. */
  lemma PastText(x: string, d: nat, p: Piece, ln: nat, ls: int)
    requires !p.Newline?
    ensures var w := Reached(x, d, p, ln, ls); Past(x, d, p, ln, ls) == w.(pos := w.pos + |Text(p)|)
  {
  }

  lemma StepWord(x: string, d: nat, p: Piece, ln: nat, ls: int)
    requires p.Word? && ValidPiece(p) && At(x, d, GapText(p.gap) + Text(p))
    requires WordEndsAt(x, d + |GapText(p.gap) + Text(p)|)
    ensures NextToken(Lexer(x, d, ln, ls)) == Done(Lexed(TokenOf(p), Past(x, d, p, ln, ls)))
  {
    ReachText(x, d, p, ln, ls);
    AtSlice(x, d + |GapText(p.gap)|, p.word);
    PastText(x, d, p, ln, ls);
    WordTextAt(Lexer(x, d, ln, ls), Reached(x, d, p, ln, ls), d + |GapText(p.gap) + Text(p)|, p.word,
      TokenOf(p), Past(x, d, p, ln, ls));
  }

  lemma StepMark(x: string, d: nat, p: Piece, ln: nat, ls: int)
    requires p.Mark? && ValidPiece(p) && At(x, d, GapText(p.gap) + Text(p))
    ensures NextToken(Lexer(x, d, ln, ls)) == Done(Lexed(TokenOf(p), Past(x, d, p, ln, ls)))
  {
    ReachText(x, d, p, ln, ls);
    AtChar(x, d + |GapText(p.gap)|, Text(p), 0);
    PastText(x, d, p, ln, ls);
    PunctuationAt(Lexer(x, d, ln, ls), Reached(x, d, p, ln, ls), TokenOf(p), Past(x, d, p, ln, ls));
  }

  lemma StepNewline(x: string, d: nat, p: Piece, ln: nat, ls: int)
    requires p.Newline? && ValidPiece(p) && At(x, d, GapText(p.gap) + Text(p))
    ensures NextToken(Lexer(x, d, ln, ls)) == Done(Lexed(TokenOf(p), Past(x, d, p, ln, ls)))
  {
    ReachText(x, d, p, ln, ls);
    AtChar(x, d + |GapText(p.gap)|, Text(p), 0);
    NewlineAt(Lexer(x, d, ln, ls), Reached(x, d, p, ln, ls), TokenOf(p), Past(x, d, p, ln, ls));
  }

  /** A quoted text placed at offset `w`: the closing quote is the first one after
      the opening one, and the body lies between them. */
  lemma QuotedText(x: string, w: nat, q: char, body: string)
    requires q !in body && At(x, w, [q] + body + [q])
    ensures w + |body| + 1 < |x| && x[w] == q && x[w + |body| + 1] == q
    ensures forall j | w < j < w + |body| + 1 :: x[j] != q
    ensures x[w + 1..w + |body| + 1] == body
  {
    var t := [q] + body + [q];
    AtChar(x, w, t, 0);
    AtChar(x, w, t, |body| + 1);
    forall j | w < j < w + |body| + 1 ensures x[j] == body[j - w - 1] {
      AtChar(x, w, t, j - w);
    }
  }

  /** Where the quoted text of a well-formed quoted piece lies once its gap is skipped. */
  lemma QuotedFacts(x: string, d: nat, p: Piece)
    requires p.Quoted? && ValidPiece(p) && At(x, d, GapText(p.gap) + Text(p))
    ensures var w := d + |GapText(p.gap)|; var close := w + |p.body| + 1;
      && close < |x| && IsQuote(x[w]) && x[close] == x[w]
      && (forall j | w < j < close :: x[j] != x[w])
      && x[w + 1..close] == p.body
  {
    AtSplit(x, d, GapText(p.gap), Text(p));
    assert Text(p) == [p.quote] + p.body + [p.quote];
    QuotedText(x, d + |GapText(p.gap)|, p.quote, p.body);
  }

  /** What reading the quoted text gives is the piece's token and the state past it. */
  lemma QuotedOutcome(x: string, d: nat, p: Piece, ln: nat, ls: int)
    requires p.Quoted? && ValidPiece(p) && At(x, d, GapText(p.gap) + Text(p))
    ensures var w := Reached(x, d, p, ln, ls); var close := w.pos + |p.body| + 1;
      && close < |x|
      && TokenOf(p) == Token(Str, w.input[w.pos + 1..close])
      && Past(x, d, p, ln, ls) == w.(pos := close + 1)
  {
    QuotedFacts(x, d, p);
    PastText(x, d, p, ln, ls);
  }

  lemma StepQuoted(x: string, d: nat, p: Piece, ln: nat, ls: int)
    requires p.Quoted? && ValidPiece(p) && At(x, d, GapText(p.gap) + Text(p))
    ensures NextToken(Lexer(x, d, ln, ls)) == Done(Lexed(TokenOf(p), Past(x, d, p, ln, ls)))
  {
    ReachText(x, d, p, ln, ls);
    QuotedFacts(x, d, p);
    QuotedOutcome(x, d, p, ln, ls);
    var w := Reached(x, d, p, ln, ls);
    assert w.input == x && w.pos == d + |GapText(p.gap)|;
    QuotedAt(Lexer(x, d, ln, ls), w, w.pos + |p.body| + 1, TokenOf(p), Past(x, d, p, ln, ls));
  }

  /** A well-formed piece placed at offset `d` of `x`, and followed by something
      that ends it when it is a word, is read there as its token, and the lexer
      stops right after the piece. */
  lemma StepAt(x: string, d: nat, p: Piece, ln: nat, ls: int)
    requires ValidPiece(p) && At(x, d, GapText(p.gap) + Text(p))
    requires p.Word? ==> WordEndsAt(x, d + |GapText(p.gap) + Text(p)|)
    ensures NextToken(Lexer(x, d, ln, ls)) == Done(Lexed(TokenOf(p), Past(x, d, p, ln, ls)))
  {
    if p.Word? {
      StepWord(x, d, p, ln, ls);
    } else if p.Mark? {
      StepMark(x, d, p, ln, ls);
    } else if p.Newline? {
      StepNewline(x, d, p, ln, ls);
    } else {
      StepQuoted(x, d, p, ln, ls);
    }
  }

  /** The script's text appears in `x` at offset `d`. */
  predicate Occurs(x: string, d: nat, s: Script)
    decreases s
  {
    match s
    case End => d <= |x|
    case Then(p, rest) =>
      var piece := GapText(p.gap) + Text(p);
      At(x, d, piece) && Occurs(x, d + |piece|, rest)
  }

  /** Where a script's whole text appears, each of its pieces appears in turn. */
  lemma {:induction false} OccursAt(x: string, d: nat, s: Script)
    requires At(x, d, Input(s))
    ensures Occurs(x, d, s)
    decreases s
  {
    match s
    case End =>
    case Then(p, rest) =>
      AtSplit(x, d, GapText(p.gap) + Text(p), Input(rest));
      OccursAt(x, d + |GapText(p.gap) + Text(p)|, rest);
  }

  /** A well-formed piece placed at offset `d` of `x`, ended there if it is a word. */
  predicate Fits(x: string, d: nat, p: Piece) {
    && ValidPiece(p) && At(x, d, GapText(p.gap) + Text(p))
    && (p.Word? ==> WordEndsAt(x, d + |GapText(p.gap) + Text(p)|))
  }

  /** One piece read in front of a known reading of what follows it. */
  lemma ReadStep(x: string, l: Lexer, p: Piece, n': nat, toks': seq<Token>, n: nat, toks: seq<Token>)
    requires l.input == x && Fits(x, l.pos, p)
    requires TakeTokens(Past(x, l.pos, p, l.line, l.lineStart), n') == Done(toks')
    requires n == n' + 1 && toks == [TokenOf(p)] + toks'
    ensures TakeTokens(l, n) == Done(toks)
  {
    StepAt(x, l.pos, p, l.line, l.lineStart);
    assert l == Lexer(x, l.pos, l.line, l.lineStart);
    TakeStep(l, n', TokenOf(p), Past(x, l.pos, p, l.line, l.lineStart), toks');
  }

  /** What a well-formed script placed at offset `d` of `x`, and running to offset
      `stop`, says about its first piece and about the rest of it. */
  lemma ScriptHead(x: string, d: nat, stop: nat, p: Piece, tail: Script, end: bool)
    requires Occurs(x, d, Then(p, tail)) && Valid(Then(p, tail), end) && stop == d + |Input(Then(p, tail))|
    ensures var e := d + |GapText(p.gap) + Text(p)|;
      && ValidPiece(p) && At(x, d, GapText(p.gap) + Text(p))
      && Occurs(x, e, tail) && Valid(tail, end) && stop == e + |Input(tail)|
  {
  }

  /** A word ends where the piece after it starts, or where the script ends when
      the script is said to end a word. */
  lemma HeadEnd(x: string, e: nat, stop: nat, p: Piece, tail: Script, end: bool)
    requires Valid(Then(p, tail), end) && Occurs(x, e, tail)
    requires stop == e + |Input(tail)| && end == WordEndsAt(x, stop)
    ensures p.Word? ==> WordEndsAt(x, e)
  {
    if p.Word? && tail.Then? {
      EndsWordAt(x, e, tail.first);
    }
  }

  /** A well-formed script placed at the current offset of `l`, and running to
      offset `stop`, reads as exactly its tokens: the `n` tokens read from `l`
      are `toks`. */
  lemma {:induction false} ReadFrom(x: string, s: Script, l: Lexer, stop: nat, end: bool, n: nat, toks: seq<Token>)
    requires l.input == x && Occurs(x, l.pos, s) && Valid(s, end)
    requires stop == l.pos + |Input(s)| && end == WordEndsAt(x, stop)
    requires n == Length(s) && toks == Named(s)
    ensures TakeTokens(l, n) == Done(toks)
    decreases s
  {
    match s
    case End =>
    case Then(p, tail) =>
      ScriptHead(x, l.pos, stop, p, tail, end);
      var next := Past(x, l.pos, p, l.line, l.lineStart);
      assert next.input == x && next.pos == l.pos + |GapText(p.gap) + Text(p)|;
      var n', toks' := Length(tail), Named(tail);
      ReadFrom(x, tail, next, stop, end, n', toks');
      FromStep(x, l, p, tail, stop, end, n', toks', n, toks);
  }

  /** The first piece of a script read in front of a known reading of the rest. */
  lemma FromStep(x: string, l: Lexer, p: Piece, tail: Script, stop: nat, end: bool, n': nat, toks': seq<Token>, n: nat, toks: seq<Token>)
    requires l.input == x && Occurs(x, l.pos, Then(p, tail)) && Valid(Then(p, tail), end)
    requires stop == l.pos + |Input(Then(p, tail))| && end == WordEndsAt(x, stop)
    requires n == Length(Then(p, tail)) && toks == Named(Then(p, tail))
    requires n' == Length(tail) && toks' == Named(tail)
    requires TakeTokens(Past(x, l.pos, p, l.line, l.lineStart), n') == Done(toks')
    ensures TakeTokens(l, n) == Done(toks)
  {
    HeadFits(x, l.pos, stop, p, tail, end);
    ReadStep(x, l, p, n', toks', n, toks);
  }

  /** A whole well-formed script read from the start of a fresh lexer. */
  lemma ReadAll(s: Script)
    requires Valid(s, true)
    ensures TakeTokens(New(Input(s)), Length(s)) == Done(Named(s))
  {
    var x := Input(s);
    assert At(x, 0, x);
    OccursAt(x, 0, s);
    ReadFrom(x, s, New(x), |x|, true, Length(s), Named(s));
  }

  /** Valid lines, of which the last may stop at the end of input without a
      newline, make a valid script naming their tokens in order. */
  lemma {:induction false} OpenLinesFacts(ls: seq<seq<Piece>>, tss: seq<seq<Token>>)
    requires |ls| == |tss| && 0 < |ls|
    requires forall i | 0 <= i < |ls| - 1 :: ValidLine(ls[i], tss[i])
    requires ValidRun(ls[|ls| - 1], tss[|ls| - 1])
    ensures Valid(Lines(ls), true) && Named(Lines(ls)) == Concat(tss)
    decreases |ls|
  {
    var ls', tss' := ls[1..], tss[1..];
    if |ls| == 1 {
      PrefixFacts(ls[0], tss[0], End, true);
      assert Lines(ls) == Prefix(ls[0], Lines([]));
      assert Concat(tss) == tss[0] + Concat([]);
    } else {
      forall i | 0 <= i < |ls'| - 1 ensures ValidLine(ls'[i], tss'[i]) {
        assert ls'[i] == ls[i + 1] && tss'[i] == tss[i + 1];
      }
      OpenLinesFacts(ls', tss');
      assert ValidLine(ls[0], tss[0]);
      PrefixFacts(ls[0], tss[0], Lines(ls'), true);
    }
  }

  /** `k` end-of-input tokens. */
  function Eofs(k: nat): (r: seq<Token>)
    ensures |r| == k && forall i | 0 <= i < k :: r[i] == Token(Eof, "")
  {
    if k == 0 then [] else Eofs(k - 1) + [Token(Eof, "")]
  }

  /** The tokens of a script after its first piece, and the end-of-input tokens after them. */
  lemma NamedStep(p: Piece, tail: Script, k: nat, n': nat, toks': seq<Token>)
    requires n' == Length(tail) + k && toks' == Named(tail) + Eofs(k)
    ensures Length(Then(p, tail)) + k == n' + 1 && Named(Then(p, tail)) + Eofs(k) == [TokenOf(p)] + toks'
  {
    AppendAssoc([TokenOf(p)], Named(tail), Eofs(k));
  }

  /** A well-formed script that runs to the end of the input reads as its tokens
      followed by as many end-of-input tokens as are asked for. */
  lemma {:induction false} ReadToEnd(x: string, s: Script, l: Lexer, end: bool, k: nat, n: nat, toks: seq<Token>)
    requires l.input == x && Occurs(x, l.pos, s) && Valid(s, end)
    requires l.pos + |Input(s)| == |x| && end == WordEndsAt(x, |x|)
    requires n == Length(s) + k && toks == Named(s) + Eofs(k)
    ensures TakeTokens(l, n) == Done(toks)
    decreases s
  {
    match s
    case End =>
      TokensAfterEnd(l, k);
      assert TakeTokens(l, k).value == Eofs(k);
      assert n == k && toks == Eofs(k);
    case Then(p, tail) =>
      ScriptHead(x, l.pos, |x|, p, tail, end);
      var next := Past(x, l.pos, p, l.line, l.lineStart);
      assert next.input == x && next.pos == l.pos + |GapText(p.gap) + Text(p)|;
      var n', toks' := Length(tail) + k, Named(tail) + Eofs(k);
      ReadToEnd(x, tail, next, end, k, n', toks');
      EndStep(x, l, p, tail, end, k, n', toks', n, toks);
  }

  /** The first piece of a script that runs to the end of the input, read in front
      of a known reading of the rest. */
  lemma EndStep(x: string, l: Lexer, p: Piece, tail: Script, end: bool, k: nat, n': nat, toks': seq<Token>, n: nat, toks: seq<Token>)
    requires l.input == x && Occurs(x, l.pos, Then(p, tail)) && Valid(Then(p, tail), end)
    requires l.pos + |Input(Then(p, tail))| == |x| && end == WordEndsAt(x, |x|)
    requires n == Length(Then(p, tail)) + k && toks == Named(Then(p, tail)) + Eofs(k)
    requires n' == Length(tail) + k && toks' == Named(tail) + Eofs(k)
    requires TakeTokens(Past(x, l.pos, p, l.line, l.lineStart), n') == Done(toks')
    ensures TakeTokens(l, n) == Done(toks)
  {
    HeadFits(x, l.pos, |x|, p, tail, end);
    NamedStep(p, tail, k, n', toks');
    ReadStep(x, l, p, n', toks', n, toks);
  }

  /** The first piece of a well-formed script placed at offset `d` fits there. */
  lemma HeadFits(x: string, d: nat, stop: nat, p: Piece, tail: Script, end: bool)
    requires Occurs(x, d, Then(p, tail)) && Valid(Then(p, tail), end)
    requires stop == d + |Input(Then(p, tail))| && end == WordEndsAt(x, stop)
    ensures Fits(x, d, p)
  {
    ScriptHead(x, d, stop, p, tail, end);
    HeadEnd(x, d + |GapText(p.gap) + Text(p)|, stop, p, tail, end);
  }

  /** A whole well-formed script read from the start of a fresh lexer, and the
      end-of-input tokens after it. */
  lemma ReadAllToEnd(s: Script, k: nat, n: nat, toks: seq<Token>)
    requires Valid(s, true) && n == Length(s) + k && toks == Named(s) + Eofs(k)
    ensures TakeTokens(New(Input(s)), n) == Done(toks)
  {
    OccursWhole(s);
    ReadToEnd(Input(s), s, New(Input(s)), true, k, n, toks);
  }

  /** A script's text appears, piece by piece, at the start of that text. */
  lemma OccursWhole(s: Script)
    ensures Occurs(Input(s), 0, s) && WordEndsAt(Input(s), |Input(s)|)
  {
    assert At(Input(s), 0, Input(s));
    OccursAt(Input(s), 0, s);
  }
}
