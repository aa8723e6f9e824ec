/**
 * src/presentation/helpers/server-error.js, as written: the module exports a class declared
 * as `MissingParamError` whose constructor accepts `paramName`, ignores it, and sets the
 * message 'Internal error' and the name 'ServerError'.
 */
module ServerError {
  import opened Options
  import opened ErrorValues
  import UnauthorizedError
  import MissingParamError
  import InvalidParamError

  const Message: string := "Internal error"
  const Name: string := "ServerError"

  /** `new ServerError(paramName)`; `None` stands for a call with no argument. */
  function New(paramName: Option<string>): (e: ErrorValue)
    ensures e.message == "Internal error" && e.name == "ServerError"
  {
    ErrorValue(Message, Name)
  }

  /** The argument is ignored, so every construction is the same value. */
  lemma IgnoresParamName(a: Option<string>, b: Option<string>)
    ensures New(a) == New(b)
  {
  }

  /** Its name differs from the one the other three helpers share, so it equals none of them. */
  lemma DistinctFromOtherErrors(p: Option<string>, n: string, q: Option<string>)
    ensures New(p).name != UnauthorizedName
    ensures New(p) != UnauthorizedError.New()
    ensures New(p) != MissingParamError.New(n)
    ensures New(p) != InvalidParamError.New(q)
  {
  }

}
