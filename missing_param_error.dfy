/**
 * src/presentation/helpers/missing-param-error.js, as written: the module exports a class
 * declared as `UnauthorizedError` whose constructor accepts `paramName` but never uses it,
 * and whose message is the constant "Unauthorized".
 */
module MissingParamError {
  import opened ErrorValues
  import UnauthorizedError

  const Message: string := "Unauthorized"

  /** `new MissingParamError(paramName)`. */
  function New(paramName: string): (e: ErrorValue)
    ensures e.message == "Unauthorized" && e.name == "unauthorizedError"
  {
    ErrorValue(Message, UnauthorizedName)
  }

  /** The argument is ignored: the bodies built for 'Email' and for 'Password' are equal. */
  lemma IgnoresParamName(a: string, b: string)
    ensures New(a) == New(b)
    ensures New("Email") == New("Password")
  {
  }

  /** A missing-param value is, field for field, the unauthorized value. */
  lemma SameAsUnauthorized(paramName: string)
    ensures New(paramName) == UnauthorizedError.New()
  {
  }

}
