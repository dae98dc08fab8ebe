/** A declarative description of which modifier lists `#[pyarg(kind, ...)]` accepts and
    what default they produce, independent of the left-to-right fold that decodes them. */
module AttributeSpec {
  import opened Wrappers
  import opened Syntax
  import opened Diagnostics
  import opened ArgAttributes

  /** `default` or `optional` written alone. */
  predicate IsBareDefault(arg: NestedMeta) {
    arg.MetaItem? && arg.meta.MetaPath?
    && (IsIdent(arg.meta.path, "default") || IsIdent(arg.meta.path, "optional"))
  }

  /** `default = "..."` with a string literal. */
  predicate IsExplicitDefault(arg: NestedMeta) {
    arg.MetaItem? && arg.meta.MetaNameValue? && IsIdent(arg.meta.path, "default")
    && arg.meta.lit.LitStr?
  }

  /** A modifier the derive knows and can act on: a bare default, or an explicit default
      whose text parses as an expression. */
  predicate Accepted(arg: NestedMeta, parse: ExprParser) {
    IsBareDefault(arg) || (IsExplicitDefault(arg) && parse(arg.meta.lit.value).Some?)
  }

  /** The texts of the explicit defaults among `args`, in order. */
  function ExplicitTexts(args: seq<NestedMeta>): (r: seq<string>)
    ensures r != [] <==> exists i :: 0 <= i < |args| && IsExplicitDefault(args[i])
    ensures forall j :: 0 <= j < |r| ==>
              exists i :: 0 <= i < |args| && IsExplicitDefault(args[i]) && args[i].meta.lit.value == r[j]
    decreases |args|
  {
    if args == [] then []
    else if IsExplicitDefault(args[0]) then [args[0].meta.lit.value] + ExplicitTexts(args[1..])
    else ExplicitTexts(args[1..])
  }

  predicate HasBareDefault(args: seq<NestedMeta>) {
    exists i :: 0 <= i < |args| && IsBareDefault(args[i])
  }

  /** For a non-flatten kind starting from default `d`, the modifier list is accepted
      exactly when every modifier is accepted and at most one explicit default is present
      in all (counting `d`). The result is then the explicit default if there is one,
      otherwise the type's default if a bare modifier asked for it, otherwise `d`.
      For acceptance and the resulting default, the order of the modifiers does not
      matter; the error a refused list reports does depend on it. */
  lemma {:induction false} ParseArgumentsCharacterised(
    k: ParameterKind, d: Option<DefaultValue>, args: seq<NestedMeta>, parse: ExprParser)
    requires k != Flatten
    ensures var r := ParseArguments(ArgAttribute(k, d), args, parse);
            var xs := ExplicitTexts(args);
            && (r.Success? <==>
                  (forall i :: 0 <= i < |args| ==> Accepted(args[i], parse))
                  && |xs| + (if HasExplicitDefault(ArgAttribute(k, d)) then 1 else 0) <= 1)
            && (r.Success? ==> r.value.kind == k)
            && (r.Success? && |xs| == 1 ==> r.value.default == Some(parse(xs[0])))
            && (r.Success? && xs == [] ==>
                  r.value.default == (if d.None? && HasBareDefault(args) then Some(None) else d))
    decreases |args|
  {
    var a := ArgAttribute(k, d);
    if args == [] {
      assert !HasBareDefault(args);
    } else {
      var x, rest := args[0], args[1..];
      assert forall i :: 0 <= i < |rest| ==> rest[i] == args[i + 1];
      var step := ParseArgument(a, x, parse);
      if step.Success? {
        var a' := step.value;
        ParseArgumentsCharacterised(k, a'.default, rest, parse);
        assert Accepted(x, parse);
        if IsBareDefault(x) {
          assert !IsExplicitDefault(x);
          assert ExplicitTexts(args) == ExplicitTexts(rest);
          assert HasBareDefault(args);
        } else {
          assert IsExplicitDefault(x);
          assert ExplicitTexts(args) == [x.meta.lit.value] + ExplicitTexts(rest);
          assert HasExplicitDefault(a');
          assert !HasExplicitDefault(a);
        }
      } else {
        assert ParseArguments(a, args, parse).Failure?;
        if Accepted(x, parse) {
          if IsBareDefault(x) {
            assert false;
          }
          assert ExplicitTexts(args) == [x.meta.lit.value] + ExplicitTexts(rest);
        }
      }
    }
  }

  /** A whole `#[pyarg(kind, modifiers...)]` attribute with a non-flatten kind decodes
      exactly when its modifiers are accepted and carry at most one explicit default. */
  lemma PyargAttributeAccepted(
    k: ParameterKind, mods: seq<NestedMeta>, parse: ExprParser)
    requires k != Flatten
    ensures var nested := [MetaItem(MetaPath(Ident(KindKeyword(k))))] + mods;
            var r := FromAttribute(Attribute(Ident("pyarg"), Some(MetaList(Ident("pyarg"), nested))), parse);
            && r.Some?
            && (r.value.Success? <==>
                  (forall i :: 0 <= i < |mods| ==> Accepted(mods[i], parse))
                  && |ExplicitTexts(mods)| <= 1)
            && (r.value.Success? ==> r.value.value.kind == k)
            && (r.value.Success? ==>
                  r.value.value.default ==
                    (if |ExplicitTexts(mods)| == 1 then Some(parse(ExplicitTexts(mods)[0]))
                     else if HasBareDefault(mods) then Some(None)
                     else None))
  {
    var nested := [MetaItem(MetaPath(Ident(KindKeyword(k))))] + mods;
    assert nested[1..] == mods;
    ParseArgumentsCharacterised(k, None, mods, parse);
  }
}
