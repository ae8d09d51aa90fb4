/** The exceptions the bot's validation raises, as values. */
module Errors {

  /** The Python exception classes that the core raises or lets escape. */
  datatype Kind = TypeError | KeyError | AttributeError | ValueError

  /** An exception object: its class and the argument it was raised with. */
  datatype Exception = Exception(kind: Kind, arg: string)

  /** A computation that either returns a value or raises. */
  datatype Result<+T> = Ok(value: T) | Err(error: Exception) {

    /** Failure-compatible, so `:-` propagates a raised exception. */
    predicate IsFailure() {
      Err?
    }

    function PropagateFailure<U>(): Result<U>
      requires Err?
    {
      Err(error)
    }

    function Extract(): T
      requires Ok?
    {
      value
    }
  }

  /** `str(e)`, the text an f-string puts in place of an exception.
      A KeyError renders the `repr` of its argument; every KeyError argument
      in the core holds a single quote and no double quote, so `repr` wraps
      it in double quotes. The other classes render their argument as is. */
  function Text(e: Exception): (r: string)
    ensures e.kind != KeyError ==> r == e.arg
    ensures e.kind == KeyError ==> |r| == |e.arg| + 2 && r[0] == r[|r| - 1] == '"' && r[1..|r| - 1] == e.arg
  {
    if e.kind == KeyError then "\"" + e.arg + "\"" else e.arg
  }
}
