/** src/presentation/helpers/invalid-param-error.js: `new InvalidParamError(paramName)`. */
module InvalidParamError {
  import opened Options
  import opened ErrorValues
  import UnauthorizedError
  import MissingParamError

  /** The fixed text the message starts with. */
  const Prefix: string := "Invalid param: "

  /** How the template literal renders the argument: `undefined` when it is left out. */
  function Rendered(paramName: Option<string>): (s: string)
    ensures paramName.Some? ==> s == paramName.value
  {
    match paramName
    case None => "undefined"
    case Some(n) => n
  }

  /**
   * `new InvalidParamError(paramName)`; `None` stands for a call with no argument. The message
   * is the template literal `Invalid param: ${paramName}`; the name is set to
   * 'unauthorizedError', not to a name of its own.
   */
  function New(paramName: Option<string>): (e: ErrorValue)
    ensures |e.message| == |Prefix| + |Rendered(paramName)|
    ensures e.message[..|Prefix|] == Prefix && e.message[|Prefix|..] == Rendered(paramName)
    ensures e.name == "unauthorizedError"
  {
    ErrorValue(Prefix + Rendered(paramName), UnauthorizedName)
  }

  /** Recovers the parameter name from a message, when the message has the prefix. */
  function ParamNameOf(message: string): (r: Option<string>)
    ensures r.Some? <==> |Prefix| <= |message| && message[..|Prefix|] == Prefix
    ensures r.Some? ==> Prefix + r.value == message
  {
    if |Prefix| <= |message| && message[..|Prefix|] == Prefix then
      assert Prefix + message[|Prefix|..] == message[..|Prefix|] + message[|Prefix|..];
      Some(message[|Prefix|..])
    else
      None
  }

  /** A string parameter name can be read back from the message built for it. */
  lemma ParamNameRoundTrip(paramName: string)
    ensures ParamNameOf(New(Some(paramName)).message) == Some(paramName)
  {
  }

  /** Distinct string parameter names give distinct values. */
  lemma Injective(a: string, b: string)
    ensures New(Some(a)) == New(Some(b)) <==> a == b
  {
    if New(Some(a)) == New(Some(b)) {
      ParamNameRoundTrip(a);
      ParamNameRoundTrip(b);
    }
  }

  /**
   * Over all arguments the constructor is not injective: a call with no argument builds the
   * same value as a call with the string 'undefined'.
   */
  lemma MissingArgumentCollides()
    ensures New(None) == New(Some("undefined"))
    ensures New(None).message == "Invalid param: undefined"
  {
  }

  /** Never equal to the unauthorized value, although the two share their `name`. */
  lemma DiffersFromUnauthorized(paramName: Option<string>)
    ensures New(paramName).name == UnauthorizedError.New().name
    ensures New(paramName) != UnauthorizedError.New()
    ensures forall n :: New(paramName) != MissingParamError.New(n)
  {
  }

}
