/**
 * The error objects the presentation helpers construct. Each helper is a subclass of the
 * JavaScript `Error` class whose constructor sets exactly two observable fields: `message`
 * (through the `Error` super-constructor) and `name`. Stack traces and the prototype chain
 * are not modelled, so an error is the value of those two fields.
 */
module ErrorValues {

  datatype ErrorValue = ErrorValue(message: string, name: string)

  /** The `name` shared by the missing-param, invalid-param and unauthorized errors. */
  const UnauthorizedName: string := "unauthorizedError"

}
