/** The compile-time errors the derive reports. A real diagnostic also carries the span
    of the offending syntax and a message text; the model keeps only which error it is. */
module Diagnostics {

  datatype Diagnostic =
    | MetaParseFailed          // the attribute's tokens are not a `Meta`
    | NotAList                 // `#[pyarg]` or `#[pyarg = ...]`
    | NoArguments              // `#[pyarg()]`
    | BadParameterKind         // first item is not one of the four kind keywords
    | FlattenWithArguments     // any item after `flatten`
    | UnrecognisedAttribute    // an item that is not a known modifier
    | DefaultAlreadySet        // a second `default = "..."`
    | ExpectedStringDefault    // `default = <non-string literal>`
    | DefaultExprParseFailed   // `default = "..."` whose text is not an expression
    | MultiplePyargAttributes  // two or more `#[pyarg]` on one field
    | NotNamedStruct           // the input is not a struct with named fields
}
