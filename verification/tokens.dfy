/** The token model: the closed set of lexical categories and the keyword table. */
module Tokens {

  /** The lexical categories. Each has the spelling the Go `Type` string carries. */
  datatype Kind =
    | Illegal | Eof | Eol | Expr | Str | Comment
    | LBracket | RBracket | Comma
    | From | As | User | Env | Arg | Copy | Run | Workdir | Expose | Entrypoint | Cmd

  /** A token: its category and the text it was read from. Source positions are not modelled. */
  datatype Token = Token(kind: Kind, literal: string)

  /** The eleven instruction keywords. */
  predicate IsKeyword(k: Kind) {
    k in {From, As, User, Env, Arg, Copy, Run, Workdir, Expose, Entrypoint, Cmd}
  }

  /** The string value of each category, as used in token literals and error messages. */
  function Spelling(k: Kind): string {
    match k
    case Illegal => "ILLEGAL"
    case Eof => "EOF"
    case Eol => "EOL"
    case Expr => "EXPR"
    case Str => "STRING"
    case Comment => "COMMENT"
    case LBracket => "["
    case RBracket => "]"
    case Comma => ","
    case From => "FROM"
    case As => "AS"
    case User => "USER"
    case Env => "ENV"
    case Arg => "ARG"
    case Copy => "COPY"
    case Run => "RUN"
    case Workdir => "WORKDIR"
    case Expose => "EXPOSE"
    case Entrypoint => "ENTRYPOINT"
    case Cmd => "CMD"
  }

  /** A token whose literal is the one its category implies: a keyword is spelled as
      the keyword, a comment marker is `#`, and the end of input carries no text. */
  predicate WellSpelled(t: Token) {
    && (IsKeyword(t.kind) ==> t.literal == Spelling(t.kind))
    && (t.kind == Comment ==> t.literal == "#")
    && (t.kind == Eof ==> t.literal == "")
  }

  /** The keyword table: each keyword's spelling mapped to its category. */
  const Keywords: map<string, Kind> := map[
    "FROM" := From, "AS" := As, "USER" := User, "ENV" := Env, "ARG" := Arg,
    "COPY" := Copy, "RUN" := Run, "WORKDIR" := Workdir, "EXPOSE" := Expose,
    "ENTRYPOINT" := Entrypoint, "CMD" := Cmd
  ]

  /** Classifies a word: a keyword category when the word is exactly (case-sensitively)
      a keyword's spelling, and a generic expression word otherwise. */
  function LookupIdent(ident: string): (k: Kind)
    ensures k == Expr || IsKeyword(k)
    ensures IsKeyword(k) ==> Spelling(k) == ident
  {
    if ident in Keywords then Keywords[ident] else Expr
  }

  /** A word is an expression word exactly when no keyword is spelled that way. */
  lemma LookupIdentExpr(ident: string)
    ensures LookupIdent(ident) == Expr <==> forall kw :: IsKeyword(kw) ==> Spelling(kw) != ident
  {
    if LookupIdent(ident) != Expr {
      KeywordRoundTrip(LookupIdent(ident));
    } else {
      forall kw | IsKeyword(kw) ensures Spelling(kw) != ident {
        KeywordRoundTrip(kw);
      }
    }
  }

  /** Every keyword's spelling is looked up as that keyword: together with the
      second ensures of `LookupIdent` the table and `Spelling` are inverse. */
  lemma KeywordRoundTrip(k: Kind)
    requires IsKeyword(k)
    ensures LookupIdent(Spelling(k)) == k
  {
  }

  /** Distinct categories have distinct spellings. */
  lemma SpellingInjective(a: Kind, b: Kind)
    requires Spelling(a) == Spelling(b)
    ensures a == b
  {
  }

  /** The match is exact and case-sensitive. */
  lemma LookupIsExact()
    ensures LookupIdent("from") == Expr
    ensures LookupIdent("FROMX") == Expr
    ensures LookupIdent("From") == Expr
    ensures LookupIdent("") == Expr
    ensures LookupIdent("FROM") == From
    ensures LookupIdent("ENTRYPOINT") == Entrypoint
  {
  }
}
