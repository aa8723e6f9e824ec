/**
 * The router's test cases (tests/prosentation/routers/login-router.spec.js) replayed against
 * the router as written, with the collaborator double of tests/mocks/auth-use-case-mock.js.
 */
module LoginRouterExamples {
  import opened Options
  import opened ErrorValues
  import opened HttpResponse
  import opened LoginRouter
  import MissingParamError
  import InvalidParamError
  import UnauthorizedError
  import ServerError

  /** `AuthUseCaseMock`: resolves with its stored `accessToken` (`None` for null). */
  function AuthUseCaseMock(accessToken: Option<string>): (u: AuthUseCase) {
    AuthUseCase((email: string, password: string) =>
      match accessToken
      case None => NoToken
      case Some(t) => Token(t))
  }

  /** `AuthUseCaseMockWithError`: always throws. */
  function AuthUseCaseMockWithError(): (u: AuthUseCase) {
    AuthUseCase((email: string, password: string) => Fault)
  }

  /** A request whose body holds the given fields. */
  function Req(email: Option<string>, password: Option<string>): (request: Option<HttpRequest>) {
    Some(HttpRequest(Some(RequestBody(email, password))))
  }

  /** The cases whose expectations the router as written meets. */
  lemma TestsMetByRouter()
    ensures var r := Route(LoginRouter(Some(AuthUseCaseMock(Some("any_token")))),
                           Req(Some("valid_email@mail.com"), Some("valid_password")));
      r.response.statusCode == 200 && r.response.body.accessToken == "any_token"
    ensures var r := Route(LoginRouter(Some(AuthUseCaseMock(Some("any_token")))), Req(None, Some("any_password")));
      r.response.statusCode == 400 && r.response.body == ErrorBody(MissingParamError.New("Email"))
    ensures var r := Route(LoginRouter(Some(AuthUseCaseMock(Some("any_token")))), Req(Some("any_email@mail.com"), None));
      r.response.statusCode == 400 && r.response.body == ErrorBody(MissingParamError.New("Password"))
    ensures var r := Route(LoginRouter(Some(AuthUseCaseMock(None))),
                           Req(Some("invalid_email@mail.com"), Some("invalid_password")));
      r.response.statusCode == 401 && r.response.body == ErrorBody(UnauthorizedError.New())
    ensures var r := Route(LoginRouter(Some(AuthUseCaseMock(Some("any_token")))), None);
      r.response.statusCode == 500 && r.response.body == ErrorBody(ServerError.New(None))
    ensures var r := Route(LoginRouter(Some(AuthUseCaseMock(Some("any_token")))), Some(HttpRequest(None)));
      r.response.statusCode == 500 && r.response.body == ErrorBody(ServerError.New(None))
    ensures var r := Route(LoginRouter(None), Req(Some("valid_email@mail.com"), Some("valid_password")));
      r.response.statusCode == 500 && r.response.body == ErrorBody(ServerError.New(None))
    ensures Route(LoginRouter(Some(AuthUseCaseMockWithError())),
                  Req(Some("any_email@mail.com"), Some("any_password"))).response.statusCode == 500
    ensures Route(LoginRouter(Some(AuthUseCaseMock(Some("any_token")))),
                  Req(Some("valid_email@mail.com"), Some("valid_password@mail.com"))).authCalls
         == [AuthCall("valid_email@mail.com", "valid_password@mail.com")]
  {
  }

  /**
   * The cases that expect an email-validation step: the router as written never consults an
   * email validator, so a well-formed request with a token-granting collaborator gets 200 where
   * those cases expect 400 with `new InvalidParamError('Email')` or 500.
   */
  lemma TestsExpectingEmailValidator()
    ensures var r := Route(LoginRouter(Some(AuthUseCaseMock(Some("any_token")))),
                           Req(Some("invalid_email@mail.com"), Some("any_password")));
      r.response == Ok("any_token") && r.response.body != ErrorBody(InvalidParamError.New(Some("Email")))
    ensures Route(LoginRouter(Some(AuthUseCaseMock(Some("any_token")))),
                  Req(Some("valid_email@mail.com"), Some("valid_password"))).response.statusCode == 200
    ensures Route(LoginRouter(Some(AuthUseCaseMock(Some("any_token")))),
                  Req(Some("any_email@mail.com"), Some("any_password"))).response.statusCode == 200
  {
  }

}
