# Login router of training-clean-node-api, modelled in Dafny

The project models the decision logic of the login endpoint, `LoginRouter.route`. It also models the four error
helpers whose objects become the response bodies. `route` takes an HTTP-style request and returns one
`{ statusCode, body }` envelope:

- an absent request, or a request without a body, throws inside the `try` and gives 500;
- a falsy `email` gives 400 with `new MissingParamError('Email')`;
- a falsy `password` gives 400 with `new MissingParamError('Password')`;
- otherwise `authUseCase.auth(email, password)` is awaited once. A falsy token gives 401 with
  `new UnauthorizedError()`. A truthy token `t` gives 200 with `{ accessToken: t }`;
- a collaborator that throws, or a router built without one, is caught and gives 500.

Everything in this core is pure, so the model is made of datatypes, functions and lemmas:

- `option.dfy` holds `Option`. It stands for a JavaScript value that may be `undefined`.
- `error_value.dfy` holds `ErrorValue(message, name)`. These are the two fields an error object's
  constructor sets.
- `unauthorized_error.dfy`, `missing_param_error.dfy`, `invalid_param_error.dfy` and `server_error.dfy`
  model one helper file each.
- `http_response.dfy` holds the response envelope and the `HttpResponse` builders.
- `login_router.dfy` holds the router, `Route` and its properties.
- `login_router_examples.dfy` replays the router's test cases against the model.

The helper files are modelled as written, and the lemmas expose their quirks:

- missing-param-error.js exports a class declared as `UnauthorizedError`. It ignores `paramName`, and its
  message is `'Unauthorized'`. So every missing-param body equals the 401 body.
- server-error.js exports a class declared as `MissingParamError`, and it also ignores its argument.
- invalid-param-error.js sets the name `'unauthorizedError'`.

A 400 response and the 401 response therefore carry the same body and differ only in status code.

The router is a value, `LoginRouter(authUseCase)`: the JavaScript constructor stores its argument once, and
`Route` returns no new router, so `route` cannot change `authUseCase`. The awaited call is replaced by its
settled outcome. The collaborator is a function from `(email, password)` to `Token(t)`, `NoToken` or `Fault`.
`Route` also returns the list of calls it made to `auth`, so the arguments of that call can be stated.

The router as written takes only `authUseCase` and never consults an email validator. The test file builds
the router with a second argument and expects an email-validation step, at
tests/prosentation/routers/login-router.spec.js lines 57-69, 115-128, 146-160 and 178-192. JavaScript drops
the extra constructor argument, and the model follows the code. The cases at lines 57-69, 115-128 and 146-160
expect a 400 or a 500: `TestsExpectingEmailValidator` shows that their requests get 200. The case at lines
178-192 expects a call to the validator's `isValid`; the router makes no such call, and the model has none.

## Model

| member | source | states |
|---|---|---|
| `UnauthorizedError.New` | src/presentation/helpers/unauthorized-error.js:2-4 | the unauthorized error has message 'Unauthorized' and name 'unauthorizedError'; it takes no argument, so every construction is the same value |
| `MissingParamError.New` | src/presentation/helpers/missing-param-error.js:2-4 | for every `paramName`, the message is 'Unauthorized' and the name is 'unauthorizedError' |
| `MissingParamError.IgnoresParamName` | src/presentation/helpers/missing-param-error.js:2-4 | the argument is ignored: any two names give equal values, so 'Email' and 'Password' give equal values too |
| `MissingParamError.SameAsUnauthorized` | src/presentation/helpers/missing-param-error.js:3-4 | each missing-param value equals the unauthorized value field for field |
| `InvalidParamError.New` | src/presentation/helpers/invalid-param-error.js:2-4 | the message is "Invalid param: " followed by exactly the rendered argument (the string itself, or 'undefined' when the argument is left out), and the name is 'unauthorizedError' |
| `InvalidParamError.ParamNameOf` | src/presentation/helpers/invalid-param-error.js:3 | reading a name back: it succeeds exactly on messages that start with "Invalid param: ", and the prefix plus the result gives back the message |
| `InvalidParamError.ParamNameRoundTrip` | src/presentation/helpers/invalid-param-error.js:3 | a string parameter name can be recovered from the message built for it |
| `InvalidParamError.Injective` | src/presentation/helpers/invalid-param-error.js:3 | for string arguments, two invalid-param values are equal if and only if their parameter names are equal |
| `InvalidParamError.MissingArgumentCollides` | src/presentation/helpers/invalid-param-error.js:3 | over all arguments the constructor is not injective: a call with no argument gives "Invalid param: undefined", the same value as the string 'undefined' |
| `InvalidParamError.DiffersFromUnauthorized` | src/presentation/helpers/invalid-param-error.js:3-4 | for any argument, it has the same name as the unauthorized value but never equals it, nor any missing-param value |
| `ServerError.New` | src/presentation/helpers/server-error.js:2-4 | for every argument, the message is 'Internal error' and the name is 'ServerError' |
| `ServerError.IgnoresParamName` | src/presentation/helpers/server-error.js:2-4 | the argument is ignored: all constructions are the same value |
| `ServerError.DistinctFromOtherErrors` | src/presentation/helpers/server-error.js:4 | its name differs from 'unauthorizedError', so it equals no unauthorized, missing-param or invalid-param value |
| `HttpResponse.BadRequestBodyIsUnauthorizedBody` | src/presentation/routers/login-router.js:12-21 | every 400 body equals the 401 body, and the two responses differ only in status code; the 'Email' and 'Password' responses are equal |
| `HttpResponse.ServerFaultBodyIsDistinct` | src/presentation/routers/login-router.js:23-25 | the 500 body differs from every 400, 401 and 200 body |
| `LoginRouter.Route` | src/presentation/routers/login-router.js:8-27 | `route` is total and calls `auth` at most once. It calls `auth` exactly when both credentials are truthy and a collaborator exists, and then only with the submitted `(email, password)`. The status is one of 200, 400, 401 or 500 |
| `LoginRouter.NoRequestOrBodyIsServerFault` | src/presentation/routers/login-router.js:9-25 | an absent request or body gives the 500 server-error response without calling `auth` |
| `LoginRouter.MissingEmailIsBadRequest` | src/presentation/routers/login-router.js:11-12 | a falsy email gives the `badRequest('Email')` response with no call to `auth`, for any password. It holds for any router, so a missing collaborator still gives 400 |
| `LoginRouter.FieldOrderNotObservable` | src/presentation/routers/login-router.js:11-15 | every request lacking a credential gets the `badRequest('Email')` response with no call, and that response equals the `badRequest('Password')` one: the email-before-password order cannot be seen in the response |
| `LoginRouter.MissingPasswordIsBadRequest` | src/presentation/routers/login-router.js:14-15 | a truthy email with a falsy password gives 400 naming 'Password', with no call to `auth`, for any router |
| `LoginRouter.AuthCalledWithSubmittedCredentials` | src/presentation/routers/login-router.js:18 | with both credentials and a collaborator, `auth` is called exactly once, with the submitted `(email, password)` |
| `LoginRouter.FalsyTokenIsUnauthorized` | src/presentation/routers/login-router.js:20-21 | a null, undefined or empty token gives 401 with the unauthorized body |
| `LoginRouter.TruthyTokenIsOk` | src/presentation/routers/login-router.js:23 | a truthy token `t` gives 200 with body `{ accessToken: t }` |
| `LoginRouter.FaultIsServerFault` | src/presentation/routers/login-router.js:18-25 | a collaborator that throws, or a router without one, gives 500 |
| `LoginRouter.StatusCharacterisesOutcome` | src/presentation/routers/login-router.js:8-27 | each status code holds exactly for its own class of inputs, in both directions, and each status comes with its own body. So every input selects exactly one outcome |
| `LoginRouter.BadRequestAndUnauthorizedBodiesAgree` | src/presentation/routers/login-router.js:11-21 | for any routers and requests, every 400 body equals every 401 body, so only the status tells a missing parameter from a refused login |
| `LoginRouter.BodyDoesNotTellBadRequestFromUnauthorized` | src/presentation/routers/login-router.js:11-21 | such a pair exists: one router answers one request with 400 and another with 401, with the same body value |
| `LoginRouter.ServerFaultHidesCause` | src/presentation/routers/login-router.js:9-25 | a missing body (no call to `auth`) and a throwing collaborator (one call) give the same 500 response, because the catch-all drops the cause |
| `LoginRouterExamples.TestsMetByRouter` | tests/prosentation/routers/login-router.spec.js:19-176 | the test cases that the code meets: 200, both 400s, 401, the 500s for no request, no body, no collaborator and a throwing collaborator, and the arguments passed to `auth` |
| `LoginRouterExamples.TestsExpectingEmailValidator` | tests/prosentation/routers/login-router.spec.js:57-160 | the email-validator cases get 200 from the router as written: the invalid-email case gets no `InvalidParamError` body |

The `HttpResponse` builders (`BadRequest`, `Unauthorized`, `ServerFault`, `Ok`) come from
src/presentation/helpers/http-response.js, which is not part of this model. Each is given the status and
body that the tests assert for it: `badRequest(n)` gives 400 with `new MissingParamError(n)`,
`unauthorizedError()` gives 401 with `new UnauthorizedError()`, `serverError()` gives 500 with
`new ServerError()`, and `ok(x)` gives 200 with `x`. The status codes are those of RFC 9110, sections 15.3.1,
15.5.1, 15.5.2 and 15.6.1.

## Left out

- Asynchrony: the awaited call to `auth` is modelled by its settled outcome. There is no concurrency in the router.
- JavaScript `Error` inheritance, the prototype chain, the class names as seen by `constructor.name`, and
  stack traces: an error value is its `message` and `name`.
- The exact runtime exception (a `TypeError` from destructuring `undefined`, or from calling `auth` on
  `undefined`): any throw inside the `try` is one outcome, and it gives 500.
- InvalidParamError.New: takes a string or no argument; numbers, objects and other non-string arguments,
  which the template literal would also render, are not modelled.
- Non-string request fields and non-string tokens (numbers, booleans, objects): each field is either absent
  or a string, and JavaScript falsiness is modelled as absent or empty. A non-object `body` is also left out.
- src/presentation/helpers/http-response.js is not part of this model: its four builders are declared from the
  test assertions, and no other field of its responses is modelled.
- The email validator, the invalid-email 400 and the missing-validator 500: the tests expect them, but the
  router as written does not implement them.
- The test doubles' own state (the mock records the `email` and `password` it was called with). `Route`
  records the call instead.
