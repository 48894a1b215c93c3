/** The syntax tree the parser builds: a program of statements, each led by
    the token that opened it. */
module Ast {
  import opened Outcomes
  import opened Tokens

  /** A word of the input kept with the token it was read from. */
  datatype Identifier = Identifier(token: Token, value: string)

  /** A `--name=value` flag: the whole flag token and its two halves. */
  datatype Argument = Argument(token: Token, name: string, value: string)

  /** The closed set of statements. A Go nil pointer field is `None`; a nil
      argument slice is the empty sequence, which the Go code never tells apart
      from an empty one. */
  datatype Statement =
    | CommentStatement(token: Token, value: Identifier)
    | FromStatement(token: Token, source: Identifier, alias: Option<Identifier>, arguments: seq<Argument>)
    | ArgStatement(token: Token, value: Identifier, argName: string, argValue: Option<string>)
    | CopyStatement(token: Token, source: Identifier, dest: Identifier, arguments: seq<Argument>)

  /** A parsed file: the leading comments (parser directives) and the statements. */
  datatype Program = Program(directive: seq<Statement>, statements: seq<Statement>)

  /** The identifier made from a token, carrying the token's text as its value. */
  function Ident(t: Token): Identifier {
    Identifier(t, t.literal)
  }

  /** The category of the token that leads each kind of statement. */
  function HeadKind(s: Statement): Kind {
    match s
    case CommentStatement(_, _) => Comment
    case FromStatement(_, _, _, _) => From
    case ArgStatement(_, _, _, _) => Arg
    case CopyStatement(_, _, _, _) => Copy
  }

  /** The categories that open a statement. */
  predicate IsStatementKind(k: Kind) {
    k == Comment || k == From || k == Arg || k == Copy
  }

  predicate WellFormedIdentifier(i: Identifier) {
    i.value == i.token.literal
  }

  /** A flag argument: its token reads `--`, the name, `=`, the value, and the
      name holds no `=`, so the split was made at the first one. */
  predicate WellFormedArgument(a: Argument) {
    a.token.literal == "--" + a.name + "=" + a.value && '=' !in a.name
  }

  /** The shape of every statement the parser produces: led by a correctly spelled
      token of its own category, with identifiers that carry their token's text,
      words in the places that demand a word, and well-formed flags. */
  predicate WellFormed(s: Statement) {
    && s.token.kind == HeadKind(s) && WellSpelled(s.token)
    && match s
       case CommentStatement(_, value) =>
         WellFormedIdentifier(value) && value.token.kind == Expr
       case FromStatement(_, source, alias, arguments) =>
         && WellFormedIdentifier(source) && source.token.kind == Expr
         && (alias.Some? ==> WellFormedIdentifier(alias.value))
         && forall i | 0 <= i < |arguments| :: WellFormedArgument(arguments[i])
       case ArgStatement(_, value, _, _) =>
         WellFormedIdentifier(value) && value.token.kind == Expr
       case CopyStatement(_, source, dest, arguments) =>
         && WellFormedIdentifier(source) && source.token.kind == Expr
         && WellFormedIdentifier(dest) && dest.token.kind == Expr
         && forall i | 0 <= i < |arguments| :: WellFormedArgument(arguments[i])
  }

  /** The text that leads each kind of statement in a Dockerfile. */
  function Keyword(s: Statement): string {
    match s
    case CommentStatement(_, _) => "#"
    case FromStatement(_, _, _, _) => "FROM"
    case ArgStatement(_, _, _, _) => "ARG"
    case CopyStatement(_, _, _, _) => "COPY"
  }

  /** `TokenLiteral` of an identifier: the text of its token, which is its value. */
  function IdentifierLiteral(i: Identifier): (r: string)
    ensures WellFormedIdentifier(i) ==> r == i.value
  {
    i.token.literal
  }

  /** `TokenLiteral` of an argument: the whole flag word, `--` included. */
  function ArgumentLiteral(a: Argument): (r: string)
    ensures WellFormedArgument(a) ==> 2 < |r| && r[..2] == "--" && '=' in r && r[2..] == a.name + "=" + a.value
  {
    a.token.literal
  }

  /** `TokenLiteral` of a statement: the literal of its leading token, which for a
      well-formed statement is its keyword or `#`. */
  function StatementLiteral(s: Statement): (r: string)
    ensures WellFormed(s) ==> r == Keyword(s)
  {
    s.token.literal
  }

  /** `TokenLiteral` of a program: that of its first statement (directives do not
      count), or empty when there is none. */
  function ProgramLiteral(p: Program): (r: string)
    ensures (forall i | 0 <= i < |p.statements| :: WellFormed(p.statements[i])) ==>
      && (r == "" <==> p.statements == [])
      && (p.statements != [] ==> r == Keyword(p.statements[0]))
  {
    if |p.statements| > 0 then StatementLiteral(p.statements[0]) else ""
  }
}
