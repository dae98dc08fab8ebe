# FromArgs derive — a Dafny model

RustPython's `#[derive(FromArgs)]` turns a struct with named fields into an
implementation of `FromArgs`, which binds a Python call's positional and keyword
arguments to the struct's fields. Each field may carry one
`#[pyarg(kind, modifiers...)]` attribute:

- `kind` is one of `positional`, `any`, `named` or `flatten`;
- the modifiers are `default` or `optional` (use the type's `Default`) and
  `default = "expr"` (use that expression).

This project models the derive's decision logic as pure functions over an abstract
syntax tree. It covers:

- decoding an attribute into a kind and a default specification;
- choosing, per field, a phantom placeholder, a recursive flatten or a lookup;
- for a lookup, choosing the retrieval call and what happens when the argument is
  absent;
- the struct-level shape check and the fold over fields, which stops at the first
  error.

Modules:

- `Wrappers`: `Option` and `Result`. `Result` works with `:-`, which stops at the
  first failure just as Rust's `?` does.
- `Syntax`: paths, the `Meta` / `NestedMeta` attribute grammar, literals, fields and
  the derive input.
- `Diagnostics`: the errors the derive raises, one tag per error.
- `ArgAttributes`: `ParameterKind::from_ident`, `ArgAttribute::from_attribute` and
  `ArgAttribute::parse_argument`.
- `AttributeSpec`: a declarative description of which modifier lists are accepted
  and which default they produce. For every kind other than flatten, it is proved to
  give exactly the lists the left-to-right fold accepts and the default the fold
  produces; it does not say which error a refused list raises.
- `FieldGen`: `generate_field` and `impl_from_args`. The generated code is
  represented by the abstract `FieldCode` datatype (`Retrieval` plus `Ending`), not
  by tokens. `AttributeOf` reads the attribute back from that code.

## Model

| member | source | states |
|---|---|---|
| ArgAttributes.FromIdent | derive/src/from_args.rs:19-27 | a kind is returned exactly for the four keywords `positional`, `any`, `named` and `flatten`, and that kind's keyword is the identifier; every other identifier gives None |
| ArgAttributes.FirstKind | derive/src/from_args.rs:48-53 | the first item names kind k exactly when it is the bare single-identifier path spelling k's keyword; a literal, a name-value pair, a nested list or a multi-segment path names no kind |
| ArgAttributes.ParseArgument | derive/src/from_args.rs:78-110 | every item after `flatten` fails with the flatten error; otherwise a literal, a nested list, a bare path other than `default`/`optional` and a `key = ...` other than `default` are "Unrecognised pyarg attribute"; `default = ...` after an explicit default is "Default already set", and otherwise a non-string literal is "Expected string value", a string that does not parse is the parse error, and a string that parses to e sets the explicit default e; an accepted modifier keeps the kind and leaves a default set, and an explicit default is never replaced |
| ArgAttributes.ParseArguments | derive/src/from_args.rs:67-69 | the modifier fold keeps the kind; a flatten attribute succeeds only with no modifiers; any accepted modifier leaves a default set |
| ArgAttributes.ParseArgumentsFirstError | derive/src/from_args.rs:67-69 | a refused modifier list fails with the error of its first failing modifier: the modifiers before it all apply, and that modifier fails on the attribute they leave, with the list's error |
| ArgAttributes.FromAttribute | derive/src/from_args.rs:38-76 | a non-`pyarg` attribute is ignored (None); unparsable tokens, a non-list form and an empty list are the matching errors; a first item naming no kind is the parameter-type error whatever follows; when it names kind k, the result is the modifier fold over the remaining items starting from kind k with no default; a decoded attribute's kind is the one its first item names, and a flatten attribute never has a default |
| ArgAttributes.KindOnlyAttribute | derive/src/from_args.rs:48-60 | `#[pyarg(k)]` decodes to kind k with no default exactly when the item is k's keyword; any item that names no kind gives the parameter-type error |
| ArgAttributes.BareDefaultIdempotent | derive/src/from_args.rs:83-87 | a bare `default`/`optional` sets the type's default only when no default is set; applying it twice is the same as once; it never overwrites an explicit default |
| ArgAttributes.ExplicitDefaultRules | derive/src/from_args.rs:92-101 | `default = "e"` after a bare `default` yields the explicit default e; a second `default = ...` after an explicit one is "Default already set", whatever its literal |
| AttributeSpec.ParseArgumentsCharacterised | derive/src/from_args.rs:78-110 | for a non-flatten kind, a modifier list is accepted exactly when every item is a bare default or a parsable string default and at most one explicit default is present; the result is the explicit default if there is one, else the type's default if a bare modifier is present, else the starting default |
| AttributeSpec.PyargAttributeAccepted | derive/src/from_args.rs:42-71 | a whole `#[pyarg(kind, mods...)]` attribute with a non-flatten kind decodes exactly when its modifiers are accepted with at most one explicit default, and the result has that kind and carries the explicit default if there is one, else the type's default if a bare modifier is present, else no default |
| FieldGen.CollectPyargs | derive/src/from_args.rs:114-118 | on success, one decoded attribute per `pyarg` attribute, in order; it fails exactly when some `pyarg` attribute is malformed, and with the error of the first malformed one; other attributes are ignored |
| FieldGen.ResolveAttribute | derive/src/from_args.rs:114-128 | no `pyarg` attribute gives position-or-keyword with no default; exactly one gives that attribute's decoding; two or more fail, with "Multiple pyarg attributes" exactly when none is malformed; any malformed one fails, and every other error is that of the first malformed `pyarg` attribute; a resolved attribute is well formed |
| FieldGen.FieldCodeFor | derive/src/from_args.rs:138-184 | the code carries the field's name; it is a recursive flatten exactly when the kind is flatten, and a lookup otherwise |
| FieldGen.FieldCodeRoundTrip | derive/src/from_args.rs:138-184 | the kind and default of every well-formed attribute can be read back from the generated field code, so distinct attributes give distinct code |
| FieldGen.FieldCodeInverse | derive/src/from_args.rs:138-184 | conversely, non-phantom code reads back as an attribute exactly when it is the code generated from that well-formed attribute for its field: the lookup key is the field's name and a required ending matches the kind |
| FieldGen.LookupTable | derive/src/from_args.rs:146-184 | positional, any and named use `take_positional`, `take_positional_keyword(name)` and `take_keyword(name)`; an absent value gives the explicit expression, `Default::default()` for a bare default, `TooFewArgs` for required positional or any, and `RequiredKeywordArgument(name)` for required named, each in both directions |
| FieldGen.GenerateField | derive/src/from_args.rs:113-186 | a field fails exactly when its attributes fail to resolve, with the same error; a `_phantom` name gives a placeholder whatever its kind; any other field gives exactly the code generated from the resolved attribute for its name, which reads back as that attribute |
| FieldGen.GenerateFields | derive/src/from_args.rs:194-197 | on success, one field code per field, in declaration order; on failure, the error is that of the first failing field, and every field before it succeeds |
| FieldGen.ImplFromArgs | derive/src/from_args.rs:188-201 | anything other than a struct with named fields gives the shape error; a named struct succeeds exactly when every field succeeds, with the struct's name and each field's code in order; otherwise it fails with the first failing field's error |
| FieldGen.UnannotatedField | derive/src/from_args.rs:119-123 | a non-phantom field without `pyarg` attributes is looked up with `take_positional_keyword(name)` and is required, failing with `TooFewArgs` when absent |
| FieldGen.PhantomField | derive/src/from_args.rs:130-137 | a `_phantom` field with a malformed `pyarg` attribute still fails; with resolvable attributes it is the placeholder |
| FieldGen.FlattenField | derive/src/from_args.rs:138-142 | `#[pyarg(flatten)]` alone gives the recursive `from_args` binding; `flatten` followed by any item is refused |
| Syntax.GetIdent | derive/src/from_args.rs:49-50 | a path yields an identifier exactly when it is a single bare identifier, and then yields that identifier; a path whose segment count is not one yields none |

## Behaviour notes

- Setting a default twice is refused only when both are explicit: a second
  `default = "..."` after an explicit one is "Default already set". A bare `default`
  or `optional` may be repeated, and may follow an explicit default, which it leaves
  as it is. An explicit default may follow a bare one and replaces it.
- An explicit default must be a string literal: `default=false` is refused with
  "Expected string value for default argument"; write `default="false"`.
- "Default already set" is checked before the literal's kind. So a second
  `default = 1` after an explicit default reports "Default already set", not the
  string error.
- For a `flatten` attribute, every further item is reported as "can't put additional
  arguments on a flatten arg", even one that would otherwise be unrecognised.

## Left out

- Token emission (`quote!`, `parse_quote!`, `stringify!`): the output is the abstract
  `FieldCode` / `FromArgsImpl` datatype. `stringify!` of a field name is modelled as
  the identifier's text (`Stringify`).
- Generics (`split_for_impl`), which only copies the struct's generics into the
  generated impl.
- `Attribute::parse_meta` is foreign parsing. An attribute carries the `Meta` its
  tokens parse to, or `None` when they do not parse; `None` is the
  `MetaParseFailed` error.
- `LitStr::parse` is foreign parsing. It is the parameter `parse: string ->
  Option<Expr>`, an arbitrary partial function; `None` is the
  `DefaultExprParseFailed` error.
- `crate::util::path_eq` is not part of this model. It is taken to be the same test
  as a single-identifier path comparison (`IsIdent`).
- Diagnostics keep only which error was raised, not the source span or the message
  text.
- What the generated code does at run time (`PyFuncArgs`, `TryFromObject`,
  `FromArgOptional`, `ArgumentError`) belongs to the host virtual machine. The model
  stops at which retrieval call and which absent-value ending are generated.
- FieldGen.FieldCodeFor: its own contract states only the field name and the flatten
  or lookup choice. The retrieval and ending mapping is stated by
  `FieldGen.LookupTable` and `FieldGen.FieldCodeRoundTrip`.
