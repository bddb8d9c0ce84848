/** Option and Result, used wherever the Python code returns None or raises. */
module Wrappers {

  datatype Option<+T> = None | Some(value: T)

  datatype Result<+R, +E> = Success(value: R) | Failure(error: E)
}

/** The Python exceptions the modelled code can raise. */
module Errors {

  datatype Error =
    | KeyError(keys: seq<string>)   // a missing dictionary key or DataFrame column
    | ValueError                    // `list.remove` of an absent element, or `strftime` on NaT
    | TypeError                     // subscripting a value that is not a dictionary, or `mean()` over text
    | AttributeError                // `.lower()` on a value that is not a string
    | DateParseError                // `pd.to_datetime` on an unparseable value
    | NotImplementedError
}
