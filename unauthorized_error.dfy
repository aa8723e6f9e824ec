/** src/presentation/helpers/unauthorized-error.js: `new UnauthorizedError()`. */
module UnauthorizedError {
  import opened ErrorValues

  const Message: string := "Unauthorized"

  /**
   * The constructor takes no argument and sets two constant fields, so every construction is
   * the same value.
   */
  function New(): (e: ErrorValue)
    ensures e.message == "Unauthorized" && e.name == "unauthorizedError"
  {
    ErrorValue(Message, UnauthorizedName)
  }

}
