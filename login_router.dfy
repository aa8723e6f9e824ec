/**
 * src/presentation/routers/login-router.js: the `LoginRouter` class and its `route` method.
 *
 * `route` is a straight sequence of early returns inside one try/catch. Every throw inside the
 * try (destructuring an absent request or body, calling `auth` on an absent collaborator, a
 * collaborator that throws) lands in the catch and becomes the 500 response. The awaited call
 * to the authentication collaborator is modelled by its completed outcome.
 */
module LoginRouter {
  import opened Options
  import opened HttpResponse

  /** The settled result of `authUseCase.auth(email, password)`. */
  datatype AuthOutcome =
    | Token(value: string)  // resolved with a string (the empty string is falsy)
    | NoToken               // resolved with null or undefined
    | Fault                 // rejected, or threw

  /** The authentication collaborator: what `auth` gives for each pair of arguments. */
  datatype AuthUseCase = AuthUseCase(auth: (string, string) -> AuthOutcome)

  /**
   * A router as built by `new LoginRouter(authUseCase)`: the constructor stores its argument
   * and nothing changes it afterwards. `None` stands for a router built with no argument.
   */
  datatype LoginRouter = LoginRouter(authUseCase: Option<AuthUseCase>)

  /** `httpRequest.body`; each field is absent (`undefined`) or a string. */
  datatype RequestBody = RequestBody(email: Option<string>, password: Option<string>)

  /** `httpRequest`, whose `body` may be absent. */
  datatype HttpRequest = HttpRequest(body: Option<RequestBody>)

  /** One call to the collaborator's `auth`, with its two arguments. */
  datatype AuthCall = AuthCall(email: string, password: string)

  /** What `route` returns, and the calls to `auth` it made on the way. */
  datatype RouteResult = RouteResult(response: Response, authCalls: seq<AuthCall>)

  /** JavaScript truthiness of an optional string: neither undefined nor the empty string. */
  predicate Truthy(field: Option<string>) {
    field.Some? && field.value != ""
  }

  /** The request has a body, and both fields of it are truthy. */
  predicate HasCredentials(request: Option<HttpRequest>) {
    && request.Some?
    && request.value.body.Some?
    && Truthy(request.value.body.value.email)
    && Truthy(request.value.body.value.password)
  }

  /** The arguments `route` passes to `auth` for a request that has both credentials. */
  function CredentialsOf(request: Option<HttpRequest>): (c: AuthCall)
    requires HasCredentials(request)
  {
    AuthCall(request.value.body.value.email.value, request.value.body.value.password.value)
  }

  /** `await router.route(httpRequest)`; `None` stands for a call with no argument. */
  function Route(router: LoginRouter, request: Option<HttpRequest>): (r: RouteResult)
    ensures |r.authCalls| <= 1
    ensures r.authCalls != [] <==> HasCredentials(request) && router.authUseCase.Some?
    ensures r.authCalls != [] ==> r.authCalls == [CredentialsOf(request)]
    ensures r.response.statusCode in {StatusOk, StatusBadRequest, StatusUnauthorized, StatusInternalServerError}
  {
    match request
    case None => RouteResult(ServerFault(), [])
    case Some(httpRequest) =>
      match httpRequest.body
      case None => RouteResult(ServerFault(), [])
      case Some(body) =>
        if !Truthy(body.email) then
          RouteResult(BadRequest("Email"), [])
        else if !Truthy(body.password) then
          RouteResult(BadRequest("Password"), [])
        else
          match router.authUseCase
          case None => RouteResult(ServerFault(), [])
          case Some(authUseCase) =>
            var email, password := body.email.value, body.password.value;
            var calls := [AuthCall(email, password)];
            match authUseCase.auth(email, password)
            case Fault => RouteResult(ServerFault(), calls)
            case NoToken => RouteResult(Unauthorized(), calls)
            case Token(accessToken) =>
              if accessToken == "" then RouteResult(Unauthorized(), calls)
              else RouteResult(Ok(accessToken), calls)
  }

  /** An absent request, or a request without a body, throws at the destructuring: 500. */
  lemma NoRequestOrBodyIsServerFault(router: LoginRouter, request: Option<HttpRequest>)
    requires request.None? || request.value.body.None?
    ensures Route(router, request) == RouteResult(ServerFault(), [])
  {
  }

  /**
   * A falsy email gives the `badRequest('Email')` response and no call to `auth`, whatever the
   * password and even for a router built without a collaborator: the checks come before the call.
   */
  lemma MissingEmailIsBadRequest(router: LoginRouter, email: Option<string>, password: Option<string>)
    requires !Truthy(email)
    ensures Route(router, Some(HttpRequest(Some(RequestBody(email, password)))))
         == RouteResult(BadRequest("Email"), [])
  {
  }

  /** A truthy email with a falsy password gives 400 naming 'Password' and no call to `auth`. */
  lemma MissingPasswordIsBadRequest(router: LoginRouter, email: string, password: Option<string>)
    requires email != "" && !Truthy(password)
    ensures Route(router, Some(HttpRequest(Some(RequestBody(Some(email), password)))))
         == RouteResult(BadRequest("Password"), [])
  {
  }

  /**
   * The source checks the email before the password, but the response cannot show that order:
   * the missing-param body ignores its argument, so every request that lacks a credential gets
   * the `badRequest('Email')` response, which is also the `badRequest('Password')` response.
   */
  lemma FieldOrderNotObservable(router: LoginRouter, request: Option<HttpRequest>)
    requires MissingCredential(request)
    ensures Route(router, request) == RouteResult(BadRequest("Email"), [])
    ensures BadRequest("Email") == BadRequest("Password")
  {
    HttpResponse.BadRequestBodyIsUnauthorizedBody("Email");
  }

  /** With both credentials and a collaborator, `auth` is called exactly once with them. */
  lemma AuthCalledWithSubmittedCredentials(auth: AuthUseCase, email: string, password: string)
    requires email != "" && password != ""
    ensures Route(LoginRouter(Some(auth)), Some(HttpRequest(Some(RequestBody(Some(email), Some(password)))))).authCalls
         == [AuthCall(email, password)]
  {
  }

  /** A collaborator that settles without a truthy token gives 401 with the unauthorized body. */
  lemma FalsyTokenIsUnauthorized(auth: AuthUseCase, email: string, password: string)
    requires email != "" && password != ""
    requires auth.auth(email, password) in {NoToken, Token("")}
    ensures Route(LoginRouter(Some(auth)), Some(HttpRequest(Some(RequestBody(Some(email), Some(password))))))
         == RouteResult(Unauthorized(), [AuthCall(email, password)])
  {
  }

  /** A truthy token `t` gives 200 with the body `{ accessToken: t }`. */
  lemma TruthyTokenIsOk(auth: AuthUseCase, email: string, password: string, t: string)
    requires email != "" && password != ""
    requires auth.auth(email, password) == Token(t) && t != ""
    ensures Route(LoginRouter(Some(auth)), Some(HttpRequest(Some(RequestBody(Some(email), Some(password))))))
         == RouteResult(Ok(t), [AuthCall(email, password)])
  {
  }

  /**
   * A collaborator that throws, or no collaborator at all, is caught and gives 500 once both
   * credentials are present; `auth` is recorded as called only when a collaborator exists.
   */
  lemma FaultIsServerFault(router: LoginRouter, email: string, password: string)
    requires email != "" && password != ""
    requires router.authUseCase.Some? ==> router.authUseCase.value.auth(email, password) == Fault
    ensures Route(router, Some(HttpRequest(Some(RequestBody(Some(email), Some(password)))))).response
         == ServerFault()
  {
  }

  /** The request carries a body that lacks one of the two credentials. */
  predicate MissingCredential(request: Option<HttpRequest>) {
    && request.Some?
    && request.value.body.Some?
    && !(Truthy(request.value.body.value.email) && Truthy(request.value.body.value.password))
  }

  /** The collaborator exists and settles, for the submitted credentials, with a truthy token. */
  predicate AuthGrants(router: LoginRouter, request: Option<HttpRequest>)
    requires HasCredentials(request)
  {
    var c := CredentialsOf(request);
    router.authUseCase.Some? && router.authUseCase.value.auth(c.email, c.password).Token?
    && router.authUseCase.value.auth(c.email, c.password).value != ""
  }

  /** The collaborator exists and settles, for the submitted credentials, without a truthy token. */
  predicate AuthDenies(router: LoginRouter, request: Option<HttpRequest>)
    requires HasCredentials(request)
  {
    var c := CredentialsOf(request);
    router.authUseCase.Some? && router.authUseCase.value.auth(c.email, c.password) in {NoToken, Token("")}
  }

  /**
   * The status code identifies the outcome, in both directions: 400 exactly for a body missing
   * a credential, 401 exactly for a denial, 200 exactly for a grant, 500 for everything else
   * (no request, no body, no collaborator, a collaborator that throws). Each status comes
   * with its own body, so exactly one outcome is selected for every input.
   */
  lemma StatusCharacterisesOutcome(router: LoginRouter, request: Option<HttpRequest>)
    ensures var r := Route(router, request).response;
      && (r.statusCode == StatusBadRequest <==> MissingCredential(request))
      && (r.statusCode == StatusUnauthorized <==> HasCredentials(request) && AuthDenies(router, request))
      && (r.statusCode == StatusOk <==> HasCredentials(request) && AuthGrants(router, request))
      && (r.statusCode == StatusInternalServerError <==>
            !MissingCredential(request)
            && !(HasCredentials(request) && (AuthDenies(router, request) || AuthGrants(router, request))))
      && (r.statusCode == StatusBadRequest ==> r == BadRequest(if Truthy(request.value.body.value.email) then "Password" else "Email"))
      && (r.statusCode == StatusUnauthorized ==> r == Unauthorized())
      && (r.statusCode == StatusInternalServerError ==> r == ServerFault())
      && (r.statusCode == StatusOk ==> r == Ok(router.authUseCase.value.auth(CredentialsOf(request).email, CredentialsOf(request).password).value))
  {
  }

  /**
   * Every 400 body the router returns equals every 401 body it returns, for any routers and
   * requests: only the status code tells a missing parameter from a refused login.
   */
  lemma BadRequestAndUnauthorizedBodiesAgree(router1: LoginRouter, request1: Option<HttpRequest>,
                                             router2: LoginRouter, request2: Option<HttpRequest>)
    requires Route(router1, request1).response.statusCode == StatusBadRequest
    requires Route(router2, request2).response.statusCode == StatusUnauthorized
    ensures Route(router1, request1).response.body == Route(router2, request2).response.body
  {
    StatusCharacterisesOutcome(router1, request1);
    StatusCharacterisesOutcome(router2, request2);
    HttpResponse.BadRequestBodyIsUnauthorizedBody("Email");
    HttpResponse.BadRequestBodyIsUnauthorizedBody("Password");
  }

  /**
   * Through the helper quirks, a client cannot tell a missing parameter from a refused login by
   * the body: one router answers one request with 400 and another with 401, and the two bodies
   * are the same value.
   */
  lemma BodyDoesNotTellBadRequestFromUnauthorized()
    ensures exists router: LoginRouter, request1: Option<HttpRequest>, request2: Option<HttpRequest> ::
      var r1, r2 := Route(router, request1).response, Route(router, request2).response;
      r1.statusCode == StatusBadRequest && r2.statusCode == StatusUnauthorized && r1.body == r2.body
  {
    var router := LoginRouter(Some(AuthUseCase((email: string, password: string) => NoToken)));
    var request1 := Some(HttpRequest(Some(RequestBody(None, None))));
    var request2 := Some(HttpRequest(Some(RequestBody(Some("e"), Some("p")))));
    HttpResponse.BadRequestBodyIsUnauthorizedBody("Email");
    assert Route(router, request1).response == BadRequest("Email");
    assert Route(router, request2).response == Unauthorized();
  }

  /**
   * A 500 response does not reveal its cause: a request without a body (no call to `auth`) and
   * a collaborator that throws (one call) give the same response.
   */
  lemma ServerFaultHidesCause()
    ensures exists router: LoginRouter, request1: Option<HttpRequest>, request2: Option<HttpRequest> ::
      var r1, r2 := Route(router, request1), Route(router, request2);
      r1.response == r2.response && r1.response.statusCode == StatusInternalServerError
      && r1.authCalls == [] && r2.authCalls != []
  {
    var router := LoginRouter(Some(AuthUseCase((email: string, password: string) => Fault)));
    var request1 := Some(HttpRequest(None));
    var request2 := Some(HttpRequest(Some(RequestBody(Some("e"), Some("p")))));
    assert Route(router, request1).response == ServerFault();
    assert Route(router, request2).response == ServerFault();
  }

}

