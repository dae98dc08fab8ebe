/** Decoding one `#[pyarg(kind, modifiers...)]` attribute into a parameter kind and a
    default specification. */
module ArgAttributes {
  import opened Wrappers
  import opened Syntax
  import opened Diagnostics

  /** How a Python parameter is bound, after `inspect.Parameter.kind`, plus `Flatten`
      for a field that is itself bound from the whole argument bundle. */
  datatype ParameterKind = PositionalOnly | PositionalOrKeyword | KeywordOnly | Flatten

  /** The keyword that names each kind as the first item of `#[pyarg(...)]`. */
  function KindKeyword(k: ParameterKind): string {
    match k
    case PositionalOnly => "positional"
    case PositionalOrKeyword => "any"
    case KeywordOnly => "named"
    case Flatten => "flatten"
  }

  /** The kind an identifier names; `None` for every identifier that is not one of the
      four keywords. */
  function FromIdent(s: string): (r: Option<ParameterKind>)
    ensures r.Some? ==> KindKeyword(r.value) == s
    ensures r.None? ==> forall k :: KindKeyword(k) != s
  {
    match s
    case "positional" => Some(PositionalOnly)
    case "any" => Some(PositionalOrKeyword)
    case "named" => Some(KeywordOnly)
    case "flatten" => Some(Flatten)
    case _ => None
  }

  /** A default specification: `None` for `default`/`optional` (the type's own default),
      `Some(e)` for `default = "e"`. */
  type DefaultValue = Option<Expr>

  /** A decoded attribute. `default` is `None` when the parameter is required. */
  datatype ArgAttribute = ArgAttribute(kind: ParameterKind, default: Option<DefaultValue>)

  predicate HasExplicitDefault(a: ArgAttribute) {
    a.default.Some? && a.default.value.Some?
  }

  /** What every successfully decoded attribute satisfies: a flatten field has no default. */
  predicate WellFormed(a: ArgAttribute) {
    a.kind == Flatten ==> a.default.None?
  }

  /** The kind the first item of the argument list names, if it names one: that item must
      be a bare identifier path spelling one of the keywords. */
  function FirstKind(item: NestedMeta): (r: Option<ParameterKind>)
    ensures forall k :: r == Some(k) <==> item == MetaItem(MetaPath(Ident(KindKeyword(k))))
  {
    match item
    case MetaItem(MetaPath(p)) =>
      (match GetIdent(p)
       case Some(s) => FromIdent(s)
       case None => None)
    case _ => None
  }

  /** The diagnostics that decoding a single attribute can raise. */
  predicate AttributeError(d: Diagnostic) {
    !d.MultiplePyargAttributes? && !d.NotNamedStruct?
  }

  /** Applies one modifier after the kind. `flatten` admits none; a bare `default` or
      `optional` asks for the type's default unless a default is already there; an
      explicit `default = "e"` is refused after another explicit one. */
  function ParseArgument(a: ArgAttribute, arg: NestedMeta, parse: ExprParser)
    : (r: Result<ArgAttribute, Diagnostic>)
    ensures r.Success? ==> r.value.kind == a.kind && r.value.default.Some?
    ensures a.kind == Flatten ==> r == Failure(FlattenWithArguments)
    ensures HasExplicitDefault(a) && r.Success? ==> r.value == a
    ensures r.Success? && !HasExplicitDefault(r.value) ==> r.value.default == Some(None)
    ensures a.kind != Flatten && arg.LitItem? ==> r == Failure(UnrecognisedAttribute)
    ensures a.kind != Flatten && arg.MetaItem? && arg.meta.MetaList? ==>
              r == Failure(UnrecognisedAttribute)
    ensures a.kind != Flatten && arg.MetaItem? && arg.meta.MetaPath?
            && !IsIdent(arg.meta.path, "default") && !IsIdent(arg.meta.path, "optional") ==>
              r == Failure(UnrecognisedAttribute)
    ensures a.kind != Flatten && arg.MetaItem? && arg.meta.MetaNameValue?
            && !IsIdent(arg.meta.path, "default") ==>
              r == Failure(UnrecognisedAttribute)
    ensures a.kind != Flatten && arg.MetaItem? && arg.meta.MetaNameValue?
            && IsIdent(arg.meta.path, "default") ==>
              && (HasExplicitDefault(a) ==> r == Failure(DefaultAlreadySet))
              && (!HasExplicitDefault(a) && arg.meta.lit.LitOther? ==> r == Failure(ExpectedStringDefault))
              && (!HasExplicitDefault(a) && arg.meta.lit.LitStr? ==>
                    (parse(arg.meta.lit.value).None? <==> r == Failure(DefaultExprParseFailed)))
              && (!HasExplicitDefault(a) && arg.meta.lit.LitStr? && parse(arg.meta.lit.value).Some? ==>
                    r == Success(a.(default := Some(parse(arg.meta.lit.value)))))
    ensures r.Failure? ==> AttributeError(r.error)
  {
    if a.kind == Flatten then
      Failure(FlattenWithArguments)
    else
      match arg
      case MetaItem(MetaPath(p)) =>
        if IsIdent(p, "default") || IsIdent(p, "optional") then
          Success(if a.default.None? then a.(default := Some(None)) else a)
        else
          Failure(UnrecognisedAttribute)
      case MetaItem(MetaNameValue(p, lit)) =>
        if IsIdent(p, "default") then
          if HasExplicitDefault(a) then
            Failure(DefaultAlreadySet)
          else
            match lit
            case LitStr(text) =>
              (match parse(text)
               case Some(e) => Success(a.(default := Some(Some(e))))
               case None => Failure(DefaultExprParseFailed))
            case LitOther(_) => Failure(ExpectedStringDefault)
        else
          Failure(UnrecognisedAttribute)
      case _ => Failure(UnrecognisedAttribute)
  }

  /** Applies the modifiers left to right, stopping at the first one that fails. */
  function ParseArguments(a: ArgAttribute, args: seq<NestedMeta>, parse: ExprParser)
    : (r: Result<ArgAttribute, Diagnostic>)
    ensures r.Success? ==> r.value.kind == a.kind
    ensures r.Success? && args != [] ==> r.value.default.Some?
    ensures a.kind == Flatten ==> (r.Success? <==> args == [])
    ensures HasExplicitDefault(a) && r.Success? ==> r.value == a
    ensures r.Failure? ==> AttributeError(r.error)
    decreases |args|
  {
    if args == [] then
      Success(a)
    else
      var a' :- ParseArgument(a, args[0], parse);
      ParseArguments(a', args[1..], parse)
  }

  /** A refused modifier list fails with the error of its first failing modifier: every
      modifier before it is applied successfully, and it fails on the attribute they
      leave. */
  lemma {:induction false} ParseArgumentsFirstError(
    a: ArgAttribute, args: seq<NestedMeta>, parse: ExprParser)
    ensures var r := ParseArguments(a, args, parse);
            r.Failure? ==>
              exists i :: 0 <= i < |args| && ParseArguments(a, args[..i], parse).Success?
                          && ParseArgument(ParseArguments(a, args[..i], parse).value, args[i], parse)
                             == Failure(r.error)
    decreases |args|
  {
    var r := ParseArguments(a, args, parse);
    if r.Failure? {
      var step := ParseArgument(a, args[0], parse);
      if step.Failure? {
        assert args[..0] == [];
      } else {
        var rest := args[1..];
        ParseArgumentsFirstError(step.value, rest, parse);
        var i :| 0 <= i < |rest| && ParseArguments(step.value, rest[..i], parse).Success?
                 && ParseArgument(ParseArguments(step.value, rest[..i], parse).value, rest[i], parse)
                    == Failure(r.error);
        assert args[..i + 1][1..] == rest[..i];
        assert args[i + 1] == rest[i];
        assert ParseArguments(a, args[..i + 1], parse) == ParseArguments(step.value, rest[..i], parse);
      }
    }
  }

  /** Decodes one attribute of a field: `None` when it is not a `pyarg` attribute (it is
      left to others), otherwise the decoded attribute or the first error. */
  function FromAttribute(attr: Attribute, parse: ExprParser)
    : (r: Option<Result<ArgAttribute, Diagnostic>>)
    ensures r.None? <==> !IsIdent(attr.path, "pyarg")
    ensures r.Some? && attr.parsed.None? ==> r.value == Failure(MetaParseFailed)
    ensures r.Some? && attr.parsed.Some? && !attr.parsed.value.MetaList? ==>
              r.value == Failure(NotAList)
    ensures r.Some? && attr.parsed.Some? && attr.parsed.value.MetaList? ==>
              (attr.parsed.value.nested == [] ==> r.value == Failure(NoArguments))
    ensures r.Some? && attr.parsed.Some? && attr.parsed.value.MetaList? ==>
              (|attr.parsed.value.nested| >= 1 && FirstKind(attr.parsed.value.nested[0]).None? ==>
                 r.value == Failure(BadParameterKind))
    ensures r.Some? && attr.parsed.Some? && attr.parsed.value.MetaList?
            && |attr.parsed.value.nested| >= 1 && FirstKind(attr.parsed.value.nested[0]).Some? ==>
              r.value == ParseArguments(ArgAttribute(FirstKind(attr.parsed.value.nested[0]).value, None),
                                        attr.parsed.value.nested[1..], parse)
    ensures r.Some? && r.value.Success? ==>
              && attr.parsed.Some? && attr.parsed.value.MetaList?
              && |attr.parsed.value.nested| >= 1
              && FirstKind(attr.parsed.value.nested[0]) == Some(r.value.value.kind)
    ensures r.Some? && r.value.Success? ==> WellFormed(r.value.value)
    ensures r.Some? && r.value.Failure? ==> AttributeError(r.value.error)
  {
    if !IsIdent(attr.path, "pyarg") then
      None
    else
      Some(
        match attr.parsed
        case None => Failure(MetaParseFailed)
        case Some(MetaList(_, nested)) =>
          if |nested| == 0 then
            Failure(NoArguments)
          else
            (match FirstKind(nested[0])
             case None => Failure(BadParameterKind)
             case Some(kind) => ParseArguments(ArgAttribute(kind, None), nested[1..], parse))
        case Some(_) => Failure(NotAList))
  }

  /** `#[pyarg(positional)]`, `#[pyarg(any)]`, `#[pyarg(named)]` and `#[pyarg(flatten)]`
      decode to the four kinds with no default; any other single first item is refused. */
  lemma KindOnlyAttribute(item: NestedMeta, parse: ExprParser)
    ensures var r := FromAttribute(Attribute(Ident("pyarg"), Some(MetaList(Ident("pyarg"), [item]))), parse);
            && (forall k :: r == Some(Success(ArgAttribute(k, None)))
                           <==> item == MetaItem(MetaPath(Ident(KindKeyword(k)))))
            && (FirstKind(item).None? ==> r == Some(Failure(BadParameterKind)))
  {
  }

  /** A bare `default` or `optional` is idempotent and never replaces an explicit
      default. */
  lemma BareDefaultIdempotent(a: ArgAttribute, p: Path, parse: ExprParser)
    requires a.kind != Flatten
    requires IsIdent(p, "default") || IsIdent(p, "optional")
    ensures var r := ParseArgument(a, MetaItem(MetaPath(p)), parse);
            && r.Success?
            && r.value.default == (if a.default.None? then Some(None) else a.default)
            && ParseArgument(r.value, MetaItem(MetaPath(p)), parse) == r
  {
  }

  /** `default = "e"` after a bare `default` yields the explicit default; a second
      explicit default is refused whatever its literal is. */
  lemma ExplicitDefaultRules(k: ParameterKind, text: string, lit: Lit, parse: ExprParser)
    requires k != Flatten
    requires parse(text).Some?
    ensures ParseArguments(ArgAttribute(k, None),
                           [MetaItem(MetaPath(Ident("default"))),
                            MetaItem(MetaNameValue(Ident("default"), LitStr(text)))], parse)
            == Success(ArgAttribute(k, Some(parse(text))))
    ensures ParseArguments(ArgAttribute(k, None),
                           [MetaItem(MetaNameValue(Ident("default"), LitStr(text))),
                            MetaItem(MetaNameValue(Ident("default"), lit))], parse)
            == Failure(DefaultAlreadySet)
  {
    var bare := MetaItem(MetaPath(Ident("default")));
    var explicit := MetaItem(MetaNameValue(Ident("default"), LitStr(text)));
    var withBare := ArgAttribute(k, Some(None));
    assert ParseArgument(ArgAttribute(k, None), bare, parse) == Success(withBare);
    assert [bare, explicit][1..] == [explicit];
    assert ParseArgument(withBare, explicit, parse) == Success(ArgAttribute(k, Some(parse(text))));
    assert ParseArguments(withBare, [explicit], parse) == Success(ArgAttribute(k, Some(parse(text))));
    var second := MetaItem(MetaNameValue(Ident("default"), lit));
    assert [explicit, second][1..] == [second];
  }
}
