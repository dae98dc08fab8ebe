/** Per-field classification and the struct-level assembly of `FromArgs`. The generated
    Rust is represented by what it decides: how a field's value is fetched from the
    argument bundle and what happens when it is absent. */
module FieldGen {
  import opened Wrappers
  import opened Syntax
  import opened Diagnostics
  import opened ArgAttributes

  /** Which call on the argument bundle fetches the field's value. */
  datatype Retrieval =
    | TakePositional
    | TakePositionalKeyword(key: string)
    | TakeKeyword(key: string)

  /** What the generated code does when the bundle has no value for the field. */
  datatype Ending =
    | DefaultExpr(expr: Expr)                 // evaluates the explicit default expression
    | TypeDefault                             // `Default::default()`
    | TooFewArgs                              // `ArgumentError::TooFewArgs`
    | RequiredKeywordArgument(key: string)    // `ArgumentError::RequiredKeywordArgument(name)`

  /** The initialiser generated for one field. */
  datatype FieldCode =
    | Phantom(name: string)                   // a `PhantomData` placeholder
    | FlattenArgs(field: Option<string>)      // a recursive `FromArgs::from_args(vm, args)`
    | Lookup(field: Option<string>, retrieval: Retrieval, ending: Ending)

  /** The generated `impl FromArgs for <structName>`: one initialiser per field, in order. */
  datatype FromArgsImpl = FromArgsImpl(structName: string, fields: seq<FieldCode>)

  /** The text `stringify!` gives for a field's identifier. */
  function Stringify(name: Option<string>): string {
    if name.Some? then name.value else ""
  }

  /** Fields whose name begins with `_phantom` carry no runtime data. */
  predicate IsPhantomName(name: string) {
    "_phantom" <= name
  }

  predicate IsPyarg(attr: Attribute) {
    IsIdent(attr.path, "pyarg")
  }

  /** A `pyarg` attribute that fails to decode. */
  predicate Malformed(attr: Attribute, parse: ExprParser) {
    IsPyarg(attr) && FromAttribute(attr, parse).value.Failure?
  }

  /** The `pyarg` attributes among `attrs`, in order. */
  function PyargAttributes(attrs: seq<Attribute>): (r: seq<Attribute>)
    ensures |r| <= |attrs|
    ensures forall i :: 0 <= i < |r| ==> IsPyarg(r[i])
    ensures r == [] <==> forall i :: 0 <= i < |attrs| ==> !IsPyarg(attrs[i])
  {
    if attrs == [] then []
    else if IsPyarg(attrs[0]) then [attrs[0]] + PyargAttributes(attrs[1..])
    else PyargAttributes(attrs[1..])
  }

  /** The first malformed attribute of `ps` fails with `e`. */
  predicate FirstFailureIs(ps: seq<Attribute>, parse: ExprParser, e: Diagnostic) {
    exists i :: 0 <= i < |ps| && FromAttribute(ps[i], parse) == Some(Failure(e))
                && forall j :: 0 <= j < i ==> !Malformed(ps[j], parse)
  }

  lemma FirstFailureShift(a: Attribute, ps: seq<Attribute>, parse: ExprParser, e: Diagnostic)
    requires !Malformed(a, parse)
    requires FirstFailureIs(ps, parse, e)
    ensures FirstFailureIs([a] + ps, parse, e)
  {
    var i :| 0 <= i < |ps| && FromAttribute(ps[i], parse) == Some(Failure(e))
             && forall j :: 0 <= j < i ==> !Malformed(ps[j], parse);
    var qs := [a] + ps;
    assert qs[i + 1] == ps[i];
    assert forall j :: 0 < j < i + 1 ==> qs[j] == ps[j - 1];
  }

  /** Decodes every `pyarg` attribute of a field, stopping at the first that fails. */
  function CollectPyargs(attrs: seq<Attribute>, parse: ExprParser)
    : (r: Result<seq<ArgAttribute>, Diagnostic>)
    ensures var ps := PyargAttributes(attrs);
            r.Success? ==>
              && |r.value| == |ps|
              && forall i :: 0 <= i < |ps| ==> FromAttribute(ps[i], parse) == Some(Success(r.value[i]))
    ensures r.Failure? ==> FirstFailureIs(PyargAttributes(attrs), parse, r.error)
    ensures r.Failure? <==> exists a :: a in attrs && Malformed(a, parse)
    decreases |attrs|
  {
    if attrs == [] then
      Success([])
    else
      var rest := attrs[1..];
      assert attrs == [attrs[0]] + rest;
      match FromAttribute(attrs[0], parse)
      case None =>
        assert PyargAttributes(attrs) == PyargAttributes(rest);
        CollectPyargs(rest, parse)
      case Some(Failure(e)) =>
        assert Malformed(attrs[0], parse) && attrs[0] == PyargAttributes(attrs)[0];
        Failure(e)
      case Some(Success(a)) =>
        assert PyargAttributes(attrs) == [attrs[0]] + PyargAttributes(rest);
        assert !Malformed(attrs[0], parse);
        match CollectPyargs(rest, parse)
        case Failure(e) =>
          FirstFailureShift(attrs[0], PyargAttributes(rest), parse, e);
          Failure(e)
        case Success(found) => Success([a] + found)
  }

  /** The attribute a field is bound by: position-or-keyword and required when it has no
      `pyarg` attribute, the decoded attribute when it has one, an error when it has
      several or when any of them is malformed. */
  function ResolveAttribute(attrs: seq<Attribute>, parse: ExprParser)
    : (r: Result<ArgAttribute, Diagnostic>)
    ensures (forall i :: 0 <= i < |attrs| ==> !IsPyarg(attrs[i])) ==>
              r == Success(ArgAttribute(PositionalOrKeyword, None))
    ensures var ps := PyargAttributes(attrs);
            |ps| == 1 ==> r == FromAttribute(ps[0], parse).value
    ensures |PyargAttributes(attrs)| >= 2 ==>
              (r == Failure(MultiplePyargAttributes)
               <==> forall a :: a in attrs ==> !Malformed(a, parse))
    ensures |PyargAttributes(attrs)| >= 2 ==> r.Failure?
    ensures (exists a :: a in attrs && Malformed(a, parse)) ==> r.Failure?
    ensures r.Failure? && r.error != MultiplePyargAttributes ==>
              FirstFailureIs(PyargAttributes(attrs), parse, r.error)
    ensures r.Success? ==> WellFormed(r.value)
  {
    var found :- CollectPyargs(attrs, parse);
    if |found| == 0 then
      Success(ArgAttribute(PositionalOrKeyword, None))
    else if |found| == 1 then
      Success(found[0])
    else
      Failure(MultiplePyargAttributes)
  }

  function RetrievalFor(kind: ParameterKind, name: Option<string>): Retrieval
    requires kind != Flatten
  {
    match kind
    case PositionalOnly => TakePositional
    case PositionalOrKeyword => TakePositionalKeyword(Stringify(name))
    case KeywordOnly => TakeKeyword(Stringify(name))
  }

  function EndingFor(attr: ArgAttribute, name: Option<string>): Ending
    requires attr.kind != Flatten
  {
    match attr.default
    case Some(Some(e)) => DefaultExpr(e)
    case Some(None) => TypeDefault
    case None =>
      if attr.kind == KeywordOnly then RequiredKeywordArgument(Stringify(name)) else TooFewArgs
  }

  /** The initialiser for a field that is not a phantom. */
  function FieldCodeFor(name: Option<string>, attr: ArgAttribute): (r: FieldCode)
    ensures !r.Phantom? && r.field == name
    ensures r.FlattenArgs? <==> attr.kind == Flatten
  {
    if attr.kind == Flatten then FlattenArgs(name)
    else Lookup(name, RetrievalFor(attr.kind, name), EndingFor(attr, name))
  }

  /** Reads back from generated code the attribute it was generated from; `None` for a
      phantom, and for a lookup whose key is not the field's name or whose ending for a
      required value does not match its retrieval. */
  function AttributeOf(code: FieldCode): Option<ArgAttribute> {
    match code
    case Phantom(_) => None
    case FlattenArgs(_) => Some(ArgAttribute(Flatten, None))
    case Lookup(name, retrieval, ending) =>
      var key := Stringify(name);
      var kind := match retrieval
        case TakePositional => PositionalOnly
        case TakePositionalKeyword(_) => PositionalOrKeyword
        case TakeKeyword(_) => KeywordOnly;
      if !retrieval.TakePositional? && retrieval.key != key then
        None
      else
        match ending
        case DefaultExpr(e) => Some(ArgAttribute(kind, Some(Some(e))))
        case TypeDefault => Some(ArgAttribute(kind, Some(None)))
        case TooFewArgs =>
          if kind == KeywordOnly then None else Some(ArgAttribute(kind, None))
        case RequiredKeywordArgument(k) =>
          if kind == KeywordOnly && k == key then Some(ArgAttribute(kind, None)) else None
  }

  /** Generated code loses nothing of a well-formed attribute: distinct attributes give
      distinct initialisers, and the attribute can be read back from the code. */
  lemma FieldCodeRoundTrip(name: Option<string>, attr: ArgAttribute)
    requires WellFormed(attr)
    ensures AttributeOf(FieldCodeFor(name, attr)) == Some(attr)
  {
  }

  /** The converse: code that reads back as an attribute is exactly the code generated
      from that attribute for its field. */
  lemma FieldCodeInverse(code: FieldCode, attr: ArgAttribute)
    requires !code.Phantom?
    ensures AttributeOf(code) == Some(attr) <==>
              WellFormed(attr) && code == FieldCodeFor(code.field, attr)
  {
  }

  /** The mapping from kind and default to retrieval and absent-value ending. */
  lemma LookupTable(name: Option<string>, attr: ArgAttribute)
    requires attr.kind != Flatten
    ensures var c := FieldCodeFor(name, attr);
            && c.Lookup?
            && (c.retrieval == TakePositional <==> attr.kind == PositionalOnly)
            && (c.retrieval == TakePositionalKeyword(Stringify(name)) <==> attr.kind == PositionalOrKeyword)
            && (c.retrieval == TakeKeyword(Stringify(name)) <==> attr.kind == KeywordOnly)
            && (attr.default == Some(None) <==> c.ending == TypeDefault)
            && (forall e :: attr.default == Some(Some(e)) <==> c.ending == DefaultExpr(e))
            && (attr.default.None? && attr.kind != KeywordOnly <==> c.ending == TooFewArgs)
            && (attr.default.None? && attr.kind == KeywordOnly <==>
                  c.ending == RequiredKeywordArgument(Stringify(name)))
  {
  }

  /** The initialiser for one field. Its attributes are resolved first, so a malformed
      attribute is an error even on a phantom field. */
  function GenerateField(field: Field, parse: ExprParser): (r: Result<FieldCode, Diagnostic>)
    ensures r.Failure? <==> ResolveAttribute(field.attrs, parse).Failure?
    ensures r.Failure? ==> r.error == ResolveAttribute(field.attrs, parse).error
    ensures r.Success? && field.ident.Some? && IsPhantomName(field.ident.value) ==>
              r.value == Phantom(field.ident.value)
    ensures r.Success? && !(field.ident.Some? && IsPhantomName(field.ident.value)) ==>
              && !r.value.Phantom? && r.value.field == field.ident
              && AttributeOf(r.value) == Some(ResolveAttribute(field.attrs, parse).value)
              && r.value == FieldCodeFor(field.ident, ResolveAttribute(field.attrs, parse).value)
  {
    var attr :- ResolveAttribute(field.attrs, parse);
    if field.ident.Some? && IsPhantomName(field.ident.value) then
      Success(Phantom(field.ident.value))
    else
      Success(FieldCodeFor(field.ident, attr))
  }

  /** The initialisers of all fields in declaration order, or the first field's error. */
  function GenerateFields(fields: seq<Field>, parse: ExprParser)
    : (r: Result<seq<FieldCode>, Diagnostic>)
    ensures r.Success? ==>
              && |r.value| == |fields|
              && forall i :: 0 <= i < |fields| ==> GenerateField(fields[i], parse) == Success(r.value[i])
    ensures r.Failure? ==>
              exists i :: 0 <= i < |fields| && GenerateField(fields[i], parse) == Failure(r.error)
                          && forall j :: 0 <= j < i ==> GenerateField(fields[j], parse).Success?
    decreases |fields|
  {
    if fields == [] then
      Success([])
    else
      var rest := fields[1..];
      assert forall i :: 0 <= i < |rest| ==> rest[i] == fields[i + 1];
      var code :- GenerateField(fields[0], parse);
      var codes :- GenerateFields(rest, parse);
      Success([code] + codes)
  }

  /** The derive itself: only a struct with named fields is accepted, and the first field
      that fails aborts the whole output. */
  function ImplFromArgs(input: DeriveInput, parse: ExprParser): (r: Result<FromArgsImpl, Diagnostic>)
    ensures !(input.data.Struct? && input.data.fields.Named?) ==> r == Failure(NotNamedStruct)
    ensures r.Success? ==>
              && input.data.Struct? && input.data.fields.Named?
              && r.value.structName == input.ident
              && |r.value.fields| == |input.data.fields.named|
              && forall i :: 0 <= i < |r.value.fields| ==>
                   GenerateField(input.data.fields.named[i], parse) == Success(r.value.fields[i])
    ensures r.Failure? && input.data.Struct? && input.data.fields.Named? ==>
              var fs := input.data.fields.named;
              exists i :: 0 <= i < |fs| && GenerateField(fs[i], parse) == Failure(r.error)
                          && forall j :: 0 <= j < i ==> GenerateField(fs[j], parse).Success?
    ensures input.data.Struct? && input.data.fields.Named? ==>
              (r.Success? <==> forall i :: 0 <= i < |input.data.fields.named| ==>
                                 GenerateField(input.data.fields.named[i], parse).Success?)
  {
    match input.data
    case Struct(Named(fields)) =>
      var codes :- GenerateFields(fields, parse);
      Success(FromArgsImpl(input.ident, codes))
    case _ => Failure(NotNamedStruct)
  }

  /** A field with no `pyarg` attribute is bound by position or keyword and is required. */
  lemma UnannotatedField(field: Field, parse: ExprParser)
    requires forall i :: 0 <= i < |field.attrs| ==> !IsPyarg(field.attrs[i])
    requires !(field.ident.Some? && IsPhantomName(field.ident.value))
    ensures GenerateField(field, parse)
            == Success(Lookup(field.ident, TakePositionalKeyword(Stringify(field.ident)), TooFewArgs))
  {
  }

  /** A phantom field still has its attributes checked: one malformed `pyarg` attribute
      makes it fail, and otherwise its kind and default are ignored. */
  lemma PhantomField(name: string, attrs: seq<Attribute>, parse: ExprParser)
    requires IsPhantomName(name)
    ensures var r := GenerateField(Field(Some(name), attrs), parse);
            && ((exists a :: a in attrs && Malformed(a, parse)) ==> r.Failure?)
            && (ResolveAttribute(attrs, parse).Success? ==> r == Success(Phantom(name)))
  {
  }

  /** `#[pyarg(flatten)]` alone gives a recursive binding; with any further item the
      field is refused. */
  lemma FlattenField(name: string, mods: seq<NestedMeta>, parse: ExprParser)
    requires !IsPhantomName(name)
    ensures var attr := Attribute(Ident("pyarg"),
                                  Some(MetaList(Ident("pyarg"), [MetaItem(MetaPath(Ident("flatten")))] + mods)));
            var r := GenerateField(Field(Some(name), [attr]), parse);
            && (mods == [] ==> r == Success(FlattenArgs(Some(name))))
            && (mods != [] ==> r == Failure(FlattenWithArguments))
  {
  }
}
