/** Shared vocabulary: optional values, Python names that may be unbound,
    the error tags the system raises, and a Result type for operations that raise. */
module Common {

  datatype Option<+T> = None | Some(value: T)

  /** A Python local name or instance attribute: either not bound yet, or bound to a value.
      Reading an unbound one raises (UnboundLocalError or AttributeError). */
  datatype Slot<+T> = Unbound | Bound(value: T)

  /** The exceptions that can reach a caller. The project's own exception classes
      (ConfigError, VariableNotFound, DataBaseError, AuthenticationError, NotHandledError,
      SelectionError) are distinct tags; the others are the Python built-ins the code
      runs into. Only the messages the code itself writes are kept. */
  datatype Error =
    | VariableNotFound(message: string)
    | ConfigError(message: string)
    | DataBaseError
    | AuthenticationError
    | NotHandledError
    | SelectionError
    | AttributeError
    | UnboundLocalError
    | TypeError
    | InvalidToken
    | KeyError
    | EofError

  datatype Result<+T> = Ok(value: T) | Err(error: Error)

  /** Python's `sep.join(xs)`. */
  function Join(sep: string, xs: seq<string>): (r: string)
    ensures xs == [] ==> r == ""
    ensures |xs| == 1 ==> r == xs[0]
  {
    if xs == [] then ""
    else if |xs| == 1 then xs[0]
    else Join(sep, xs[..|xs| - 1]) + sep + xs[|xs| - 1]
  }

  lemma JoinSnoc(sep: string, xs: seq<string>, x: string)
    ensures Join(sep, xs + [x]) == if xs == [] then x else Join(sep, xs) + sep + x
  {
    assert (xs + [x])[..|xs + [x]| - 1] == xs;
  }
}
