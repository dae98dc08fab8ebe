/** The slice of Rust syntax the derive reads: attribute paths, the `Meta` grammar of
    attribute arguments, literals, and the shape of the annotated declaration.
    Spans, tokens and generics are not represented. */
module Syntax {
  import opened Wrappers

  /** One `::`-separated segment of a path; `hasArguments` records generic arguments
      such as the `<T>` in `Vec<T>`. */
  datatype PathSegment = PathSegment(ident: string, hasArguments: bool)

  /** A path such as `pyarg`, `::std::default` or `a::b`. */
  datatype Path = Path(leadingColon: bool, segments: seq<PathSegment>)

  /** The path made of the single identifier `name`. */
  function Ident(name: string): Path {
    Path(false, [PathSegment(name, false)])
  }

  /** The identifier a path consists of, when it is a bare identifier: no leading `::`,
      exactly one segment, no generic arguments. */
  function GetIdent(p: Path): (r: Option<string>)
    ensures r.Some? ==> p == Ident(r.value)
    ensures |p.segments| == 1 && p == Ident(p.segments[0].ident) ==> r == Some(p.segments[0].ident)
    ensures |p.segments| != 1 ==> r.None?
  {
    if !p.leadingColon && |p.segments| == 1 && !p.segments[0].hasArguments then
      Some(p.segments[0].ident)
    else
      None
  }

  /** `p` is the bare identifier `name`. The derive's own path comparison against a
      keyword is taken to be this same test. */
  predicate IsIdent(p: Path, name: string) {
    GetIdent(p) == Some(name)
  }

  /** A literal inside an attribute: a string literal, or any other literal kind
      (integer, boolean, byte string, ...) kept only as its token text. */
  datatype Lit = LitStr(value: string) | LitOther(token: string)

  /** The argument grammar of an attribute: `path`, `path(nested, ...)` or `path = lit`. */
  datatype Meta =
    | MetaPath(path: Path)
    | MetaList(path: Path, nested: seq<NestedMeta>)
    | MetaNameValue(path: Path, lit: Lit)

  /** One item of a `MetaList`: a nested meta item or a bare literal. */
  datatype NestedMeta = MetaItem(meta: Meta) | LitItem(lit: Lit)

  /** A parsed expression, known only by its source text. */
  datatype Expr = Expr(source: string)

  /** Parsing a string literal's contents as an expression; `None` when the text is not
      an expression. The parser itself belongs to the syntax library and is a parameter. */
  type ExprParser = string -> Option<Expr>

  /** An outer attribute `#[path ...]`: `parsed` is what the attribute's tokens give when
      read as a `Meta`, or `None` when they do not form one. The parsed `Meta`'s own path
      is the attribute's path; the model reads only `path`. */
  datatype Attribute = Attribute(path: Path, parsed: Option<Meta>)

  /** A struct field; tuple-struct fields have no identifier. */
  datatype Field = Field(ident: Option<string>, attrs: seq<Attribute>)

  datatype Fields = Named(named: seq<Field>) | Unnamed(unnamed: seq<Field>) | Unit

  datatype Data = Struct(fields: Fields) | Enum | Union

  /** The item a derive is applied to. */
  datatype DeriveInput = DeriveInput(ident: string, data: Data)
}
